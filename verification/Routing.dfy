/**
 Requests and replies of a client (p/clnt/clnt.go): tags, the cache of requests, and the list of
 requests without a reply.  Requests that negotiate the version are not part of this model.
 */
module Routing {
  import opened Common
  import opened IdPool

  const CACHE := 16

  class Req {
    const tag: nat
    var prev: Req?
    var next: Req?
    var rc: Option<nat>        // the reply, told apart by a number

    constructor (t: nat)
      ensures tag == t && prev == null && next == null && rc == None
    {
      tag := t;
      prev, next, rc := null, null, None;
    }
  }

  function At(s: seq<Req>, i: int): Req? {
    if 0 <= i < |s| then s[i] else null
  }

  ghost predicate LinkedAt(s: seq<Req>, i: nat)
    requires i < |s|
    reads s
  {
    s[i].prev == At(s, i - 1) && s[i].next == At(s, i + 1)
  }

  /** The list from first to last, in both directions. */
  ghost predicate Linked(first: Req?, last: Req?, s: seq<Req>)
    reads s
  {
    && first == At(s, 0) && last == At(s, |s| - 1)
    && forall i :: 0 <= i < |s| ==> LinkedAt(s, i)
  }

  /** Where tag stands in s; |s| if nowhere. */
  function Find(s: seq<Req>, tag: nat): (k: nat)
    ensures k <= |s| && (k < |s| ==> s[k].tag == tag) && forall i :: 0 <= i < k ==> s[i].tag != tag
  {
    if s == [] || s[0].tag == tag then 0 else 1 + Find(s[1..], tag)
  }

  function Without(s: seq<Req>, k: nat): seq<Req>
    requires k < |s|
  {
    s[..k] + s[k + 1..]
  }

  /** Every request is in one place, and tags tell requests apart. */
  ghost predicate Kept(pending: seq<Req>, reqchan: seq<Req>, held: set<Req>, byTag: map<nat, Req>) {
    && Distinct(pending) && Distinct(reqchan) && |reqchan| <= CACHE
    && (forall r :: r in pending ==> r !in reqchan && r !in held)
    && (forall r :: r in reqchan ==> r !in held)
    && (forall t :: t in byTag ==>
        byTag[t].tag == t && (byTag[t] in pending || byTag[t] in reqchan || byTag[t] in held))
    && (forall r :: r in pending ==> r.tag in byTag && byTag[r.tag] == r)
    && (forall r :: r in reqchan ==> r.tag in byTag && byTag[r.tag] == r)
    && (forall r :: r in held ==> r.tag in byTag && byTag[r.tag] == r)
  }

  lemma TakeCached(pending: seq<Req>, reqchan: seq<Req>, held: set<Req>, byTag: map<nat, Req>)
    requires Kept(pending, reqchan, held, byTag) && reqchan != []
    ensures Kept(pending, reqchan[1..], held + {reqchan[0]}, byTag)
  {
    assert forall r :: r in reqchan <==> r == reqchan[0] || r in reqchan[1..];
    assert reqchan[0] !in reqchan[1..];
  }

  lemma TakeNew(pending: seq<Req>, reqchan: seq<Req>, held: set<Req>, byTag: map<nat, Req>, r: Req)
    requires Kept(pending, reqchan, held, byTag) && r !in pending && r !in reqchan && r.tag !in byTag
    ensures Kept(pending, reqchan, held + {r}, byTag[r.tag := r])
  {
  }

  lemma Send(pending: seq<Req>, reqchan: seq<Req>, held: set<Req>, byTag: map<nat, Req>, r: Req)
    requires Kept(pending, reqchan, held, byTag) && r in held
    ensures Kept(pending + [r], reqchan, held - {r}, byTag)
  {
    assert forall q :: q in pending + [r] <==> q in pending || q == r;
  }

  lemma Answer(pending: seq<Req>, reqchan: seq<Req>, held: set<Req>, byTag: map<nat, Req>, k: nat)
    requires Kept(pending, reqchan, held, byTag) && k < |pending|
    ensures Kept(Without(pending, k), reqchan, held + {pending[k]}, byTag)
    ensures pending[k] !in Without(pending, k)
  {
    assert forall q :: q in pending <==> q == pending[k] || q in Without(pending, k);
  }

  lemma PutCached(pending: seq<Req>, reqchan: seq<Req>, held: set<Req>, byTag: map<nat, Req>, r: Req)
    requires Kept(pending, reqchan, held, byTag) && r in held && |reqchan| < CACHE
    ensures Kept(pending, reqchan + [r], held - {r}, byTag)
  {
    assert forall q :: q in reqchan + [r] <==> q in reqchan || q == r;
  }

  lemma Drop(pending: seq<Req>, reqchan: seq<Req>, held: set<Req>, byTag: map<nat, Req>, r: Req)
    requires Kept(pending, reqchan, held, byTag) && r in held
    ensures Kept(pending, reqchan, held - {r}, byTag - {r.tag})
  {
  }

  lemma Swap(pending: seq<Req>, reqchan: seq<Req>, held: set<Req>, byTag: map<nat, Req>, r: Req, q: Req)
    requires Kept(pending, reqchan, held, byTag) && r in held && q !in pending && q !in reqchan && q !in held
    requires q.tag == r.tag
    ensures Kept(pending, reqchan, held - {r} + {q}, byTag[r.tag := q])
  {
    Drop(pending, reqchan, held, byTag, r);
    TakeNew(pending, reqchan, held - {r}, byTag - {r.tag}, q);
    assert (byTag - {r.tag})[q.tag := q] == byTag[r.tag := q];
  }

  class Clnt {
    const tagpool: Pool
    var reqfirst: Req?
    var reqlast: Req?
    var reqchan: seq<Req>
    var err: bool
    ghost var pending: seq<Req>      // sent, no reply yet
    ghost var held: set<Req>         // in the hands of callers
    ghost var byTag: map<nat, Req>

    constructor ()
      ensures Valid() && pending == [] && held == {} && reqchan == [] && !err && fresh(tagpool) && fresh(tagpool.bits)
    {
      tagpool := new Pool(NOTAG);
      reqfirst, reqlast, reqchan, err := null, null, [], false;
      pending, held, byTag := [], {}, map[];
    }

    /** The pool has given out exactly the tags of the requests. */
    ghost predicate Counted()
      reads this, tagpool, tagpool.bits
    {
      forall t: nat :: tagpool.Taken(t) <==> t in byTag
    }

    ghost predicate Valid()
      reads this, pending, reqchan, tagpool, tagpool.bits
    {
      && (forall r :: r in reqchan ==> r.next == null && r.rc == None)
      && tagpool.Valid() && tagpool.maxid == NOTAG
      && Kept(pending, reqchan, held, byTag) && Counted()
      && Linked(reqfirst, reqlast, pending)
    }

    lemma AllTaken()
      requires tagpool.Full() && tagpool.maxid == NOTAG && Counted()
      ensures forall t: nat :: t <= NOTAG ==> t in byTag
    {
      forall t: nat | t <= NOTAG ensures tagpool.Taken(t) { OnesIn(tagpool.bits[..], tagpool.bits.Length, t); }
    }

    /** A cached request, or a new one with a tag of its own; null if the caller has to wait for a tag. */
    method ReqAlloc() returns (req: Req?)
      requires Valid()
      modifies this`reqchan, this`held, this`byTag, tagpool, tagpool.bits
      ensures Valid() && (tagpool.bits == old(tagpool.bits) || fresh(tagpool.bits))
      ensures req != null ==> req.next == null && req.rc == None && req !in old(held) && req !in pending
      ensures req != null ==> held == old(held) + {req}
      ensures req != null ==> fresh(req) || req in old(reqchan)
      ensures old(reqchan) != [] ==> req == old(reqchan)[0] && reqchan == old(reqchan)[1..]
      ensures old(reqchan) == [] ==> reqchan == [] && (req != null ==> forall t: nat :: t < req.tag ==> t in old(byTag))
      ensures req == null ==> held == old(held) && reqchan == [] && tagpool.need == old(tagpool.need) + 1
      ensures req == null ==> forall t: nat :: t <= NOTAG ==> t in byTag
    {
      if |reqchan| > 0 {
        TakeCached(pending, reqchan, held, byTag);
        req := reqchan[0];
        reqchan := reqchan[1..];
        held := held + {req};
      } else {
        req := NewRequest();
      }
    }

    /** A request with the least tag that no other has. */
    method NewRequest() returns (req: Req?)
      requires Valid() && reqchan == []
      modifies this`held, this`byTag, tagpool, tagpool.bits
      ensures Valid() && (tagpool.bits == old(tagpool.bits) || fresh(tagpool.bits))
      ensures req != null ==> fresh(req) && req.next == null && req.rc == None && held == old(held) + {req}
      ensures req != null ==> forall t: nat :: t < req.tag ==> t in old(byTag)
      ensures req == null ==> held == old(held) && tagpool.need == old(tagpool.need) + 1
      ensures req == null ==> forall t: nat :: t <= NOTAG ==> t in byTag
    {
      var id, free := tagpool.GetId();
      if id.None? {
        AllTaken();
        return null;
      }
      req := new Req(id.value);
      TakeNew(pending, reqchan, held, byTag, req);
      held, byTag := held + {req}, byTag[req.tag := req];
    }

    /** Puts a request at the end of the list and sends it. */
    method Rpcnb(r: Req) returns (ok: bool)
      requires Valid() && r in held && r.next == null
      modifies this`reqfirst, this`reqlast, this`pending, this`held, r`prev,
        (if reqlast == null then {} else {reqlast})`next
      ensures Valid() && ok == !old(err) && err == old(err)
      ensures ok ==> pending == old(pending) + [r] && held == old(held) - {r}
      ensures !ok ==> unchanged(this) && unchanged(r)
    {
      if err {
        return false;
      }
      Append(r, pending);
      Send(pending, reqchan, held, byTag, r);
      pending, held := pending + [r], held - {r};
      ok := true;
    }

    method Append(r: Req, ghost s: seq<Req>)
      requires Linked(reqfirst, reqlast, s) && r !in s && r.next == null
      modifies this`reqfirst, this`reqlast, r`prev, (if reqlast == null then {} else {reqlast})`next
      ensures Linked(reqfirst, reqlast, s + [r])
    {
      if reqlast != null {
        assert LinkedAt(s, |s| - 1);
        reqlast.next := r;
      } else {
        reqfirst := r;
      }
      r.prev := reqlast;
      reqlast := r;
      forall i | 0 <= i < |s| + 1 ensures LinkedAt(s + [r], i) {
        if i < |s| { assert old(LinkedAt(s, i)); }
      }
    }

    /** The first request in the list with this tag. */
    method Lookup(tag: nat) returns (r: Req?, ghost k: nat)
      requires Valid()
      ensures k == Find(pending, tag) && r == At(pending, k)
    {
      r, k := reqfirst, 0;
      while r != null && r.tag != tag
        invariant k <= |pending| && r == At(pending, k) && forall i :: 0 <= i < k ==> pending[i].tag != tag
        decreases |pending| - k
      {
        assert LinkedAt(pending, k);
        r, k := r.next, k + 1;
      }
      FindFirst(pending, tag, k);
    }

    method UnlinkFrom(r: Req, ghost s: seq<Req>, ghost k: nat)
      requires Distinct(s) && Linked(reqfirst, reqlast, s) && k < |s| && r == s[k]
      modifies this`reqfirst, this`reqlast, s`next, s`prev
      ensures Linked(reqfirst, reqlast, Without(s, k))
    {
      assert LinkedAt(s, k);
      if k > 0 { assert LinkedAt(s, k - 1); }
      if k + 1 < |s| { assert LinkedAt(s, k + 1); }
      if r.prev != null {
        r.prev.next := r.next;
      } else {
        reqfirst := r.next;
      }
      if r.next != null {
        r.next.prev := r.prev;
      } else {
        reqlast := r.prev;
      }
      forall i | 0 <= i < |s| - 1 ensures LinkedAt(Without(s, k), i) {
        assert old(LinkedAt(s, if i < k then i else i + 1));
      }
    }

    /** Takes request k out of the list. */
    method Unlink(r: Req, ghost k: nat)
      requires Valid() && k < |pending| && r == pending[k]
      modifies this`reqfirst, this`reqlast, this`pending, this`held, pending`next, pending`prev
      ensures Valid() && pending == Without(old(pending), k) && held == old(held) + {r}
    {
      UnlinkFrom(r, pending, k);
      Answer(pending, reqchan, held, byTag, k);
      pending, held := Without(pending, k), held + {r};
    }

    /**
     A reply with this tag has come in: it goes to the first request in the list with the tag.  If there
     is none the connection is given up.
     */
    method Reply(tag: nat, rc: nat) returns (r: Req?)
      requires Valid()
      modifies this`reqfirst, this`reqlast, this`pending, this`held, this`err, pending`next, pending`prev, pending`rc
      ensures Valid()
      ensures r == null ==> err && pending == old(pending) && held == old(held)
      ensures r == null ==> forall q :: q in pending ==> q.tag != tag
      ensures r != null ==>
                && r in old(pending) && r.tag == tag && r.rc == Some(rc) && err == old(err)
                && pending == Without(old(pending), Find(old(pending), tag)) && held == old(held) + {r}
      ensures forall q :: q in old(pending) && q.tag == tag ==> q == r
      ensures forall q :: q in old(pending) && q != r ==> q.rc == old(q.rc)
    {
      ghost var k;
      OnlyOne(pending, reqchan, held, byTag, tag);
      r, k := Lookup(tag);
      if r == null {
        err := true;
        return;
      }
      Unlink(r, k);
      r.rc := Some(rc);
    }

    /** Puts a request back: into the cache or, if that is full, its tag into the pool, where it may wake a caller. */
    method ReqFree(req: Req) returns (woken: Req?)
      requires Valid() && req in held
      modifies this`reqchan, this`held, this`byTag, req, tagpool`need, tagpool.bits
      ensures Valid()
      ensures |old(reqchan)| < 16 ==> woken == null && reqchan == old(reqchan) + [req]
      ensures |old(reqchan)| >= 16 ==> reqchan == old(reqchan) && (woken == null ==> old(tagpool.need) == 0)
      ensures woken == null ==> held == old(held) - {req} && (req in reqchan || !tagpool.Taken(req.tag))
      ensures woken != null ==>
                && fresh(woken) && woken.tag == req.tag && held == old(held) - {req} + {woken}
                && woken.next == null && woken.rc == None
                && old(tagpool.need) > 0 && tagpool.need == old(tagpool.need) - 1 && |reqchan| == CACHE
    {
      req.rc, req.next, req.prev := None, null, null;
      woken := null;
      if |reqchan| < CACHE {
        PutCached(pending, reqchan, held, byTag, req);
        reqchan, held := reqchan + [req], held - {req};
      } else {
        woken := PutTag(req);
      }
    }

    method PutTag(req: Req) returns (woken: Req?)
      requires Valid() && req in held
      modifies this`held, this`byTag, tagpool`need, tagpool.bits
      ensures Valid()
      ensures woken == null ==> held == old(held) - {req} && !tagpool.Taken(req.tag) && old(tagpool.need) == 0
      ensures woken != null ==>
                && fresh(woken) && woken.tag == req.tag && held == old(held) - {req} + {woken}
                && woken.next == null && woken.rc == None
                && old(tagpool.need) > 0 && tagpool.need == old(tagpool.need) - 1
    {
      var handed := tagpool.PutId(req.tag);
      woken := null;
      if handed {
        woken := new Req(req.tag);
        Swap(pending, reqchan, held, byTag, req, woken);
        held, byTag := held - {req} + {woken}, byTag[req.tag := woken];
      } else {
        Drop(pending, reqchan, held, byTag, req);
        held, byTag := held - {req}, byTag - {req.tag};
      }
    }
  }

  lemma {:induction false} FindFirst(s: seq<Req>, tag: nat, k: nat)
    requires k <= |s| && (k < |s| ==> s[k].tag == tag) && forall i :: 0 <= i < k ==> s[i].tag != tag
    ensures Find(s, tag) == k
  {
    if k > 0 {
      FindFirst(s[1..], tag, k - 1);
    }
  }

  /** While a request waits, a reply with its tag finds it and no other. */
  lemma OwnReply(pending: seq<Req>, reqchan: seq<Req>, held: set<Req>, byTag: map<nat, Req>, r: Req)
    requires Kept(pending, reqchan, held, byTag) && r in pending
    ensures Find(pending, r.tag) < |pending| && pending[Find(pending, r.tag)] == r
  {
    var k :| 0 <= k < |pending| && pending[k] == r;
    forall i | 0 <= i < k ensures pending[i].tag != r.tag {
      assert byTag[pending[i].tag] == pending[i];
    }
    FindFirst(pending, r.tag, k);
  }

  lemma OnlyOne(pending: seq<Req>, reqchan: seq<Req>, held: set<Req>, byTag: map<nat, Req>, tag: nat)
    requires Kept(pending, reqchan, held, byTag)
    ensures forall q :: q in pending && q.tag == tag ==> q == At(pending, Find(pending, tag))
  {
    forall q | q in pending && q.tag == tag ensures q == At(pending, Find(pending, tag)) {
      OwnReply(pending, reqchan, held, byTag, q);
    }
  }
}
