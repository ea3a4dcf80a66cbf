/**
 The request engine of the server: p/srv/srv.go, `flush` of p/srv/fcall.go and the tag queue that
 `recv` of p/srv/conn.go feeds.  The engine is a protocol between goroutines, so it is modelled as a
 transition system whose steps are the sections the code runs under one lock.

 A goroutine, or a call that a goroutine waits for, is an activation: `Process` is the method of that
 name of a request, `Respond` likewise.  A caller names the activation it waits for.
 */
module Engine {
  import opened Common

  type Id = nat
  type Tag = nat

  datatype Kind = Plain | Tflush(oldtag: Tag)

  /** What has happened to a request.  No step reads it. */
  datatype Past = Past(
    after: Option<Id>,     // the request it was queued behind
    victim: Option<Id>,    // the request this Tflush found
    flushers: seq<Id>,     // the Tflushes that found this request, newest first
    proc: Option<nat>,     // the activation that processes it
    handed: bool,          // Process was called on it: the file server has an ordinary request
    winner: Option<nat>,   // the Respond activation that set reqResponded
    settled: bool,         // its reply was put on reqout, or dropped
    suppressed: bool)      // its reply was dropped

  /** One request.  The four bits of the status word are four fields. */
  datatype Req = Req(
    tag: Tag, kind: Kind,
    flush: bool, work: bool, responded: bool, saved: bool,
    flushreq: Option<Id>, prev: Option<Id>, next: Option<Id>,
    past: Past)

  datatype ProcPc =
    | Begin                    // at the first lock of process
    | Flushed(call: nat)       // waits for the Respond of a request flushed before it started
    | Handle                   // at the call of Process
    | NoVictim(call: nat)      // a Tflush that found nothing waits for its own Respond
    | Judge(victim: Id)        // a Tflush is about to look at the status of its victim
    | AskServer(victim: Id)    // the victim is being worked on: the file server may flush it
    | Calling(call: nat)       // waits for the Respond of the victim
    | Finish                   // at the last lock of process
    | Ended

  datatype RespPc =
    | Claim                                                                         // at the first lock
    | Unlink(flushed: bool)                                                         // at the lock of the connection
    | Post(flushed: bool, nextreq: Option<Id>, flushreqs: Option<Id>)               // at the send on reqout
    | StartNext(nextreq: Option<Id>, flushreqs: Option<Id>)                         // before the next of the tag
    | Loop(cur: Option<Id>, done: nat)                                        // at the head of the flush loop
    | InLoop(cur: Option<Id>, done: nat, call: nat)                           // waits for one flush
    | Closed

  datatype Act = Process(req: Id, pp: ProcPc) | Respond(req: Id, rp: RespPc)
  {
    predicate Over() {
      if Process? then pp.Ended? else rp.Closed?
    }
  }

  datatype State = State(
    conn: map<Tag, Id>,            // conn.reqs
    reqs: seq<Req>,
    acts: seq<Act>,
    out: seq<Id>,                  // everything ever sent on conn.reqout
    queues: map<Tag, seq<Id>>)     // history: the requests of a tag still chained, newest first

  /** One move: a message arrives, an activation advances, or the file server answers a request. */
  datatype Step =
    | Recv(tag: Tag, kind: Kind)
    | Run(a: nat, flushOp: bool)
    | Answer(i: Id)

  const Init := State(map[], [], [], [], map[])

  predicate Is(s: State, i: Id) { i < |s.reqs| }

  /* ---- every identifier held anywhere names a request or an activation ---- */

  ghost predicate Named(n: nat, o: Option<Id>) { o.Some? ==> o.value < n }

  ghost predicate Linked(n: nat, r: Req) {
    Named(n, r.flushreq) && Named(n, r.prev) && Named(n, r.next)
  }

  ghost predicate AllLinked(reqs: seq<Req>) {
    forall i :: 0 <= i < |reqs| ==> Linked(|reqs|, reqs[i])
  }

  ghost predicate Awaits(acts: seq<Act>, c: nat) { c < |acts| && acts[c].Respond? }

  ghost predicate TypedAct(n: nat, acts: seq<Act>, act: Act) {
    && act.req < n
    && match act
       case Process(_, pp) =>
         (match pp
          case Flushed(c) => Awaits(acts, c)
          case NoVictim(c) => Awaits(acts, c)
          case Calling(c) => Awaits(acts, c)
          case Judge(v) => v < n
          case AskServer(v) => v < n
          case _ => true)
       case Respond(_, rp) =>
         (match rp
          case Post(_, nx, f) => Named(n, nx) && Named(n, f)
          case StartNext(nx, f) => Named(n, nx) && Named(n, f)
          case Loop(c, _) => Named(n, c)
          case InLoop(c, _, call) => c.Some? && c.value < n && Awaits(acts, call)
          case _ => true)
  }

  ghost predicate Typed(s: State) {
    && (forall t :: t in s.conn ==> s.conn[t] < |s.reqs|)
    && AllLinked(s.reqs)
    && (forall a :: 0 <= a < |s.acts| ==> TypedAct(|s.reqs|, s.acts, s.acts[a]))
  }

  function Lookup(m: map<Tag, Id>, t: Tag): Option<Id> {
    if t in m then Some(m[t]) else None
  }

  function Queue(s: State, t: Tag): seq<Id> {
    if t in s.queues then s.queues[t] else []
  }

  function Without(q: seq<Id>, i: Id): seq<Id> {
    if q == [] then [] else if q[0] == i then Without(q[1..], i) else [q[0]] + Without(q[1..], i)
  }

  /** How far a Respond activation is: waiting to claim, claimed, past the reply, or over. */
  function Phase(act: Act): nat {
    match act
    case Process(_, _) => 0
    case Respond(_, rp) =>
      match rp
      case Claim => 0
      case Unlink(_) => 1
      case Post(_, _, _) => 1
      case StartNext(_, _) => 2
      case Loop(_, _) => 2
      case InLoop(_, _, _) => 2
      case Closed => 3
  }

  ghost predicate SameOutcome(r: Req, r': Req) {
    && r'.responded == r.responded
    && r'.past.winner == r.past.winner
    && r'.past.settled == r.past.settled
    && r'.past.suppressed == r.past.suppressed
  }

  ghost predicate SamePhase(act: Act, act': Act) {
    && act'.req == act.req
    && act'.Process? == act.Process?
    && (Phase(act') == Phase(act) || (Phase(act) == 2 && Phase(act') == 3))
  }

  /** Steps that answer nobody: requests keep their outcome, activations their phase. */
  ghost predicate QuietReqs(reqs: seq<Req>, reqs': seq<Req>) {
    && |reqs| <= |reqs'|
    && (forall i :: 0 <= i < |reqs| ==> SameOutcome(reqs[i], reqs'[i]))
    && (forall i :: |reqs| <= i < |reqs'| ==> Unanswered(reqs'[i]))
  }

  ghost predicate Unanswered(r: Req) {
    !r.responded && r.past.winner.None? && !r.past.settled && !r.past.suppressed
  }

  ghost predicate QuietActs(acts: seq<Act>, acts': seq<Act>) {
    && |acts| <= |acts'|
    && (forall a :: 0 <= a < |acts| ==> SamePhase(acts[a], acts'[a]))
    && (forall a :: |acts| <= a < |acts'| ==> Phase(acts'[a]) == 0)
  }

  ghost predicate Quiet(s: State, s': State) {
    s'.out == s.out && QuietReqs(s.reqs, s'.reqs) && QuietActs(s.acts, s'.acts)
  }

  /* ---- what each step does ---- */

  function Set(s: State, i: Id, r: Req): State
    requires Is(s, i)
  {
    s.(reqs := s.reqs[i := r])
  }

  function Go(s: State, a: nat, act: Act): State
    requires a < |s.acts|
  {
    s.(acts := s.acts[a := act])
  }

  function Spawn(s: State, act: Act): State {
    s.(acts := s.acts + [act])
  }

  function NewReq(tag: Tag, kind: Kind, next: Option<Id>): Req {
    Req(tag, kind, false, false, false, false, None, None, next,
        Past(next, None, [], None, false, None, false, false))
  }

  /** The insertion at the end of recv: the newest request of a tag heads its chain. */
  function Receive(s: State, tag: Tag, kind: Kind): (s': State)
    requires Typed(s)
    ensures Typed(s')
    ensures Quiet(s, s')
  {
    var i := |s.reqs|;
    var next := Lookup(s.conn, tag);
    var r := NewReq(tag, kind, next);
    var s1 := s.(conn := s.conn[tag := i], queues := s.queues[tag := [i] + Queue(s, tag)]);
    match next
    case Some(o) =>
      var older := s.reqs[o].(prev := Some(i));
      s1.(reqs := s.reqs[o := older] + [r])
    case None =>
      var r1 := r.(past := r.past.(proc := Some(|s.acts|)));
      Spawn(s1.(reqs := s.reqs + [r1]), Process(i, Begin))
  }

  function BeginStep(s: State, a: nat, i: Id): (s': State)
    requires Typed(s) && a < |s.acts| && s.acts[a].Process? && s.acts[a].req == i && Is(s, i)
    ensures Typed(s')
    ensures Quiet(s, s')
  {
    if s.reqs[i].flush then
      Spawn(Go(s, a, Process(i, Flushed(|s.acts|))), Respond(i, Claim))
    else
      Go(Set(s, i, s.reqs[i].(work := true)), a, Process(i, Handle))
  }

  /** Process: an ordinary request goes to the file server, a Tflush is linked to its victim. */
  function HandleStep(s: State, a: nat, i: Id): (s': State)
    requires Typed(s) && a < |s.acts| && s.acts[a].Process? && s.acts[a].req == i && Is(s, i)
    ensures Typed(s')
    ensures Quiet(s, s')
  {
    match s.reqs[i].kind
    case Plain => Go(Hand(s, i), a, Process(i, Finish))
    case Tflush(oldtag) =>
      match Lookup(s.conn, oldtag)
      case None => FlushNobody(s, a, i)
      case Some(v) => Go(LinkFlush(s, i, v), a, Process(i, Judge(v)))
  }

  /** No request has the tag: the Tflush is answered at once. */
  function FlushNobody(s: State, a: nat, i: Id): (s': State)
    requires Typed(s) && a < |s.acts| && s.acts[a].Process? && s.acts[a].req == i && Is(s, i)
    ensures Typed(s') && Quiet(s, s')
  {
    Spawn(Go(Hand(s, i), a, Process(i, NoVictim(|s.acts|))), Respond(i, Claim))
  }

  function Hand(s: State, i: Id): (s': State)
    requires Typed(s) && Is(s, i)
    ensures Typed(s') && Quiet(s, s')
    ensures s' == s.(reqs := s'.reqs) && |s'.reqs| == |s.reqs|
  {
    Set(s, i, s.reqs[i].(past := s.reqs[i].past.(handed := true)))
  }

  /** Puts Tflush i at the head of the flushes waiting for v. */
  function LinkFlush(s: State, i: Id, v: Id): (s': State)
    requires Typed(s) && Is(s, i) && Is(s, v)
    ensures Typed(s') && Quiet(s, s')
    ensures s' == s.(reqs := s'.reqs) && |s'.reqs| == |s.reqs|
  {
    var r := s.reqs[i];
    var s1 := Set(s, i, r.(flushreq := s.reqs[v].flushreq, past := r.past.(handed := true, victim := Some(v))));
    var w := s1.reqs[v];
    Set(s1, v, w.(flushreq := Some(i), past := w.past.(flushers := [i] + w.past.flushers)))
  }

  /** A request nobody worked on yet is flushed here; otherwise the file server is asked. */
  function JudgeStep(s: State, a: nat, i: Id, v: Id): (s': State)
    requires Typed(s) && a < |s.acts| && s.acts[a].Process? && s.acts[a].req == i && Is(s, i)
    requires Is(s, v)
    ensures Typed(s')
    ensures Quiet(s, s')
  {
    if !s.reqs[v].work && !s.reqs[v].saved then
      FlushVictim(s, a, i, v)
    else
      Go(s, a, Process(i, AskServer(v)))
  }

  function FlushVictim(s: State, a: nat, i: Id, v: Id): (s': State)
    requires Typed(s) && a < |s.acts| && s.acts[a].Process? && s.acts[a].req == i && Is(s, i)
    requires Is(s, v)
    ensures Typed(s')
    ensures Quiet(s, s')
  {
    var s1 := Set(s, v, s.reqs[v].(flush := true));
    Spawn(Go(s1, a, Process(i, Calling(|s.acts|))), Respond(v, Claim))
  }

  function FinishStep(s: State, a: nat, i: Id): (s': State)
    requires Typed(s) && a < |s.acts| && s.acts[a].Process? && s.acts[a].req == i && Is(s, i)
    ensures Typed(s')
    ensures Quiet(s, s')
  {
    var r := s.reqs[i];
    Go(Set(s, i, r.(work := false, saved := r.saved || !r.responded)), a, Process(i, Ended))
  }

  function ClaimStep(s: State, a: nat, i: Id): (s': State)
    requires Typed(s) && a < |s.acts| && s.acts[a].Respond? && Is(s, i)
    ensures Typed(s')
  {
    var r := s.reqs[i];
    if r.responded then
      Go(Set(s, i, r.(work := false)), a, Respond(i, Closed))
    else
      var r1 := r.(responded := true, work := false, past := r.past.(winner := Some(a)));
      Go(Set(s, i, r1), a, Respond(i, Unlink(r.flush)))
  }

  /** The last request reached by following flushreq from r. */
  function ChainEnd(reqs: seq<Req>, r: Id, fuel: nat): Id
    requires r < |reqs|
    requires AllLinked(reqs)
    ensures ChainEnd(reqs, r, fuel) < |reqs|
    decreases fuel
  {
    if fuel == 0 || reqs[r].flushreq.None? then r else ChainEnd(reqs, reqs[r].flushreq.value, fuel - 1)
  }

  /** Takes the request out of its tag chain.  Flushes waiting for it move to the next request. */
  function UnlinkStep(s: State, a: nat, i: Id, flushed: bool): (s': State)
    requires Typed(s) && a < |s.acts| && s.acts[a] == Respond(i, Unlink(flushed)) && Is(s, i)
    ensures Typed(s')
    ensures Quiet(s, s')
  {
    var r := s.reqs[i];
    var s0 := s.(queues := s.queues[r.tag := Without(Queue(s, r.tag), i)]);
    match r.prev
    case None =>
      Go(s0.(conn := s.conn - {r.tag}), a, Respond(i, Post(flushed, None, r.flushreq)))
    case Some(n) =>
      var s1 := Set(s0, n, s.reqs[n].(next := None));
      var s2 := if r.flushreq.None? then s1 else MoveFlushes(s1, n, r.flushreq);
      Go(s2, a, Respond(i, Post(flushed, Some(n), None)))
  }

  function MoveFlushes(s: State, n: Id, head: Option<Id>): (s': State)
    requires Is(s, n) && AllLinked(s.reqs) && Named(|s.reqs|, head)
    ensures |s'.reqs| == |s.reqs| && AllLinked(s'.reqs)
    ensures s' == s.(reqs := s'.reqs) && QuietReqs(s.reqs, s'.reqs)
  {
    if s.reqs[n].flushreq.None? then
      Set(s, n, s.reqs[n].(flushreq := head))
    else
      var p := ChainEnd(s.reqs, s.reqs[n].flushreq.value, |s.reqs|);
      Set(s, p, s.reqs[p].(next := head))
  }

  function PostStep(s: State, a: nat, i: Id, flushed: bool, n: Option<Id>, f: Option<Id>): (s': State)
    requires Typed(s) && a < |s.acts| && s.acts[a].Respond? && Is(s, i)
    requires Named(|s.reqs|, n) && Named(|s.reqs|, f)
    ensures Typed(s')
  {
    var r := s.reqs[i];
    var s1 := Set(s, i, r.(past := r.past.(settled := true, suppressed := flushed)));
    Go(s1.(out := if flushed then s.out else s.out + [i]), a, Respond(i, StartNext(n, f)))
  }

  function StartNextStep(s: State, a: nat, i: Id, n: Option<Id>, f: Option<Id>): (s': State)
    requires Typed(s) && a < |s.acts| && s.acts[a] == Respond(i, StartNext(n, f)) && Is(s, i)
    requires Named(|s.reqs|, n) && Named(|s.reqs|, f)
    ensures Typed(s')
    ensures Quiet(s, s')
  {
    var s1 := Go(s, a, Respond(i, Loop(f, 0)));
    match n
    case None => s1
    case Some(j) =>
      var r := s.reqs[j];
      Spawn(Set(s1, j, r.(past := r.past.(proc := Some(|s.acts|)))), Process(j, Begin))
  }

  function LoopStep(s: State, a: nat, i: Id, cur: Option<Id>, done: nat): (s': State)
    requires Typed(s) && a < |s.acts| && s.acts[a] == Respond(i, Loop(cur, done)) && Is(s, i)
    requires Named(|s.reqs|, cur)
    ensures Typed(s')
    ensures Quiet(s, s')
  {
    match cur
    case None => Go(s, a, Respond(i, Closed))
    case Some(f) => Spawn(Go(s, a, Respond(i, InLoop(cur, done, |s.acts|))), Respond(f, Claim))
  }

  ghost predicate Enabled(s: State, step: Step)
    requires Typed(s)
  {
    match step
    case Recv(_, _) => true
    case Answer(i) => Is(s, i) && s.reqs[i].past.handed && s.reqs[i].kind.Plain?
    case Run(a, _) =>
      a < |s.acts| && !s.acts[a].Over() &&
      match s.acts[a]
      case Process(_, Flushed(c)) => s.acts[c].Over()
      case Process(_, NoVictim(c)) => s.acts[c].Over()
      case Process(_, Calling(c)) => s.acts[c].Over()
      case Respond(_, InLoop(_, _, c)) => s.acts[c].Over()
      case _ => true
  }

  function Advance(s: State, a: nat, flushOp: bool): (s': State)
    requires Typed(s) && Enabled(s, Run(a, flushOp))
    ensures Typed(s')
  {
    var i := s.acts[a].req;
    match s.acts[a]
    case Process(_, pp) =>
      (match pp
       case Begin => BeginStep(s, a, i)
       case Flushed(_) => Go(s, a, Process(i, Handle))
       case Handle => HandleStep(s, a, i)
       case NoVictim(_) => Go(s, a, Process(i, Finish))
       case Judge(v) => JudgeStep(s, a, i, v)
       case AskServer(v) => if flushOp then FlushVictim(s, a, i, v) else Go(s, a, Process(i, Finish))
       case Calling(_) => Go(s, a, Process(i, Finish))
       case Finish => FinishStep(s, a, i)
       case Ended => s)
    case Respond(_, rp) =>
      (match rp
       case Claim => ClaimStep(s, a, i)
       case Unlink(fl) => UnlinkStep(s, a, i, fl)
       case Post(fl, n, f) => PostStep(s, a, i, fl, n, f)
       case StartNext(n, f) => StartNextStep(s, a, i, n, f)
       case Loop(cur, done) => LoopStep(s, a, i, cur, done)
       case InLoop(cur, done, _) => Go(s, a, Respond(i, Loop(s.reqs[cur.value].flushreq, done + 1)))
       case Closed => s)
  }

  function Apply(s: State, step: Step): (s': State)
    requires Typed(s) && Enabled(s, step)
    ensures Typed(s')
  {
    match step
    case Recv(tag, kind) => Receive(s, tag, kind)
    case Run(a, flushOp) => Advance(s, a, flushOp)
    case Answer(i) => Spawn(s, Respond(i, Claim))
  }

  /* ---- runs ---- */

  /** What the client, or the file server, keeps to. */
  datatype Client =
    | AnyClient
    | Passive        // the file server has no Flush operation
    | FlushClient    // no tag is reused while it is outstanding; only ordinary requests are flushed
    | QueueClient    // tags may repeat; nothing is flushed
    | GroupClient    // ordinary requests may share a tag and may be flushed; a Tflush has a tag of its own

  ghost predicate Allowed(c: Client, s: State, step: Step) {
    match c
    case AnyClient => true
    case Passive => step.Run? ==> !step.flushOp
    case QueueClient => step.Recv? ==> step.kind.Plain?
    case FlushClient => if step.Recv? then step.tag !in s.conn else step.Run? ==> AimsRight(s, step.a)
    case GroupClient => if step.Recv? then JoinsPlain(s, step.tag, step.kind) else step.Run? ==> AimsRight(s, step.a)
  }

  /** A tag that is outstanding is shared by ordinary requests only. */
  ghost predicate JoinsPlain(s: State, tag: Tag, kind: Kind) {
    tag in s.conn ==> kind.Plain? && (Is(s, s.conn[tag]) ==> s.reqs[s.conn[tag]].kind.Plain?)
  }

  ghost predicate AimsRight(s: State, a: nat) {
    a < |s.acts| ==> AimsAtPlain(s, s.acts[a])
  }

  ghost predicate AimsAtPlain(s: State, act: Act) {
    act.Process? && act.pp.Handle? && Is(s, act.req) ==>
      match s.reqs[act.req].kind
      case Plain => true
      case Tflush(oldtag) => oldtag in s.conn && Is(s, s.conn[oldtag]) ==> s.reqs[s.conn[oldtag]].kind.Plain?
  }

  ghost predicate Next(c: Client, s: State, s': State) {
    exists step :: Move(c, s, step, s')
  }

  ghost predicate Move(c: Client, s: State, step: Step, s': State) {
    Typed(s) && Enabled(s, step) && Allowed(c, s, step) && s' == Apply(s, step)
  }

  ghost predicate NextAt(c: Client, run: seq<State>, k: nat) {
    0 < k < |run| ==> Next(c, run[k - 1], run[k])
  }

  ghost predicate Reachable(c: Client, run: seq<State>) {
    |run| > 0 && run[0] == Init && forall k :: NextAt(c, run, k)
  }

  function Last(run: seq<State>): State
    requires |run| > 0
  {
    run[|run| - 1]
  }

  /** A run, but for its last step. */
  lemma Before(c: Client, run: seq<State>)
    requires Reachable(c, run) && |run| > 1
    ensures Reachable(c, run[..|run| - 1]) && Next(c, Last(run[..|run| - 1]), Last(run))
  {
    var n := |run| - 1;
    assert NextAt(c, run, n);
    forall k: nat ensures NextAt(c, run[..n], k) { assert NextAt(c, run, k); }
  }

  /* ---- what every run keeps, whatever the client does ---- */

  ghost predicate Base(s: State) {
    && Typed(s)
    && Distinct(s.out)
    && (forall k :: 0 <= k < |s.out| ==> Is(s, s.out[k]) && s.reqs[s.out[k]].past.settled)
    && (forall i :: 0 <= i < |s.reqs| ==> BaseReq(s, i))
    && (forall a :: 0 <= a < |s.acts| ==> BaseAct(s, a))
  }

  /** A request is answered by the one activation that set reqResponded. */
  ghost predicate BaseReq(s: State, i: Id)
    requires Is(s, i)
  {
    var r := s.reqs[i];
    && (r.responded <==> r.past.winner.Some?)
    && (r.past.settled ==> r.responded)
    && (r.past.suppressed ==> r.past.settled)
    && (r.past.settled && !r.past.suppressed ==> i in s.out)
    && (r.past.suppressed ==> i !in s.out)
    && (r.responded ==>
          var a := r.past.winner.value;
          && a < |s.acts| && s.acts[a].Respond? && s.acts[a].req == i && !s.acts[a].rp.Claim?
          && (r.past.settled <==> !s.acts[a].rp.Unlink? && !s.acts[a].rp.Post?))
  }

  ghost predicate BaseAct(s: State, a: nat)
    requires a < |s.acts| && Is(s, s.acts[a].req)
  {
    var act := s.acts[a];
    act.Respond? && !act.rp.Claim? ==>
      && s.reqs[act.req].responded
      && (act.rp.Closed? || s.reqs[act.req].past.winner == Some(a))
  }

  lemma BaseQuiet(s: State, s': State)
    requires Base(s) && Typed(s') && Quiet(s, s')
    ensures Base(s')
  {
    forall i | 0 <= i < |s'.reqs| ensures BaseReq(s', i) {
      if i < |s.reqs| {
        assert BaseReq(s, i) && SameOutcome(s.reqs[i], s'.reqs[i]);
        if s.reqs[i].responded {
          var a := s.reqs[i].past.winner.value;
          assert SamePhase(s.acts[a], s'.acts[a]);
        }
      }
    }
    forall a | 0 <= a < |s'.acts| ensures BaseAct(s', a) {
      if a < |s.acts| {
        assert BaseAct(s, a) && SamePhase(s.acts[a], s'.acts[a]);
      }
    }
  }

  lemma BaseClaim(s: State, a: nat, i: Id)
    requires Base(s) && a < |s.acts| && s.acts[a] == Respond(i, Claim)
    ensures Base(ClaimStep(s, a, i))
  {
    var s' := ClaimStep(s, a, i);
    forall j | 0 <= j < |s'.reqs| ensures BaseReq(s', j) {
      assert BaseReq(s, j);
    }
    forall b | 0 <= b < |s'.acts| ensures BaseAct(s', b) {
      assert BaseAct(s, b);
    }
  }

  lemma PostReq(s: State, a: nat, i: Id, fl: bool, n: Option<Id>, f: Option<Id>, j: Id)
    requires Typed(s) && a < |s.acts| && s.acts[a] == Respond(i, Post(fl, n, f)) && Is(s, i) && Is(s, j)
    requires s.reqs[i].responded && s.reqs[i].past.winner == Some(a) && i !in s.out && BaseReq(s, j)
    ensures BaseReq(PostStep(s, a, i, fl, n, f), j)
  {
  }

  lemma BasePost(s: State, a: nat, i: Id, fl: bool, n: Option<Id>, f: Option<Id>)
    requires Base(s) && a < |s.acts| && s.acts[a] == Respond(i, Post(fl, n, f))
    ensures Base(PostStep(s, a, i, fl, n, f))
  {
    var s' := PostStep(s, a, i, fl, n, f);
    assert BaseAct(s, a) && BaseReq(s, i);
    assert i !in s.out;
    forall j | 0 <= j < |s'.reqs| ensures BaseReq(s', j) {
      assert BaseReq(s, j);
      PostReq(s, a, i, fl, n, f, j);
    }
    forall b | 0 <= b < |s'.acts| ensures BaseAct(s', b) {
      assert BaseAct(s, b);
    }
  }

  /** Every step keeps Base, whatever the client does. */
  lemma BaseStep(s: State, step: Step)
    requires Base(s) && Enabled(s, step)
    ensures Base(Apply(s, step))
  {
    if step.Run? && s.acts[step.a].Respond? && s.acts[step.a].rp.Claim? {
      BaseClaim(s, step.a, s.acts[step.a].req);
    } else if step.Run? && s.acts[step.a].Respond? && s.acts[step.a].rp.Post? {
      var Respond(i, Post(fl, n, f)) := s.acts[step.a];
      BasePost(s, step.a, i, fl, n, f);
    } else {
      BaseQuiet(s, Apply(s, step));
    }
  }

  lemma {:induction false} BaseRun(c: Client, run: seq<State>)
    requires Reachable(c, run)
    ensures Base(Last(run))
    decreases |run|
  {
    if |run| > 1 {
      var was := run[..|run| - 1];
      Before(c, run);
      BaseRun(c, was);
      var step :| Move(c, Last(was), step, Last(run));
      BaseStep(Last(was), step);
    }
  }

  ghost predicate AnsweredAt(s: State, k: nat)
    requires k < |s.out|
  {
    Is(s, s.out[k]) && s.reqs[s.out[k]].responded && !s.reqs[s.out[k]].past.suppressed
  }

  /** Whatever the client does, no request is put on reqout twice, and none that was not answered. */
  lemma AnsweredAtMostOnce(c: Client, run: seq<State>)
    requires Reachable(c, run)
    ensures Distinct(Last(run).out)
    ensures forall k :: 0 <= k < |Last(run).out| ==> AnsweredAt(Last(run), k)
  {
    BaseRun(c, run);
    var s := Last(run);
    forall k | 0 <= k < |s.out| ensures AnsweredAt(s, k) {
      assert BaseReq(s, s.out[k]);
    }
  }
}
