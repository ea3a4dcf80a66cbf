/** The log of the last messages (p/log.go): a ring that is overwritten from its start. */
module RingLog {
  import opened Common

  datatype Entry = Entry(data: nat, owner: nat, typ: nat)

  predicate Wanted(it: Option<Entry>, owner: Option<nat>, typ: nat) {
    it.Some? && (owner.None? || it.value.owner == owner.value) && (typ == 0 || it.value.typ == typ)
  }

  function Matching(s: seq<Option<Entry>>, owner: Option<nat>, typ: nat): (r: seq<Entry>)
    ensures |r| <= |s|
  {
    if s == [] then []
    else
      var front := Matching(s[..|s| - 1], owner, typ);
      if Wanted(s[|s| - 1], owner, typ) then front + [s[|s| - 1].value] else front
  }

  /** The places of the entries wanted. */
  ghost function PlacesOf(s: seq<Option<Entry>>, owner: Option<nat>, typ: nat): (p: seq<nat>)
    ensures |p| == |Matching(s, owner, typ)|
  {
    if s == [] then []
    else
      var front := PlacesOf(s[..|s| - 1], owner, typ);
      if Wanted(s[|s| - 1], owner, typ) then front + [|s| - 1] else front
  }

  /** Each is that of an entry with the owner and the type asked for; no owner stands for any and type 0 for all. */
  lemma {:induction false} PlaceShows(s: seq<Option<Entry>>, owner: Option<nat>, typ: nat, k: nat)
    requires k < |PlacesOf(s, owner, typ)|
    ensures var x, it := PlacesOf(s, owner, typ)[k], Matching(s, owner, typ)[k];
            && x < |s| && s[x] == Some(it)
            && (owner.None? || it.owner == owner.value) && (typ == 0 || it.typ == typ)
    decreases |s|
  {
    var n := |s| - 1;
    if k < |PlacesOf(s[..n], owner, typ)| { PlaceShows(s[..n], owner, typ, k); }
  }

  lemma {:induction false} PlacesInOrder(s: seq<Option<Entry>>, owner: Option<nat>, typ: nat, j: nat, k: nat)
    requires j < k < |PlacesOf(s, owner, typ)|
    ensures PlacesOf(s, owner, typ)[j] < PlacesOf(s, owner, typ)[k]
    decreases |s|
  {
    var n := |s| - 1;
    if k < |PlacesOf(s[..n], owner, typ)| {
      PlacesInOrder(s[..n], owner, typ, j, k);
    } else {
      PlaceShows(s[..n], owner, typ, j);
    }
  }

  /** And no such entry is missing. */
  lemma {:induction false} PlaceIsThere(s: seq<Option<Entry>>, owner: Option<nat>, typ: nat, i: nat) returns (k: nat)
    requires i < |s| && s[i].Some?
    requires (owner.None? || s[i].value.owner == owner.value) && (typ == 0 || s[i].value.typ == typ)
    ensures k < |PlacesOf(s, owner, typ)| && PlacesOf(s, owner, typ)[k] == i
    decreases |s|
  {
    var n := |s| - 1;
    if i < n { k := PlaceIsThere(s[..n], owner, typ, i); } else { k := |PlacesOf(s[..n], owner, typ)|; }
  }

  lemma {:induction false} AllIn(p: seq<nat>, ks: set<nat>)
    requires (forall j, k :: 0 <= j < k < |p| ==> p[j] < p[k]) && forall k :: k in ks <==> k in p
    ensures |ks| == |p|
    decreases |p|
  {
    if p == [] {
      assert ks == {};
    } else {
      var x := p[|p| - 1];
      AllIn(p[..|p| - 1], ks - {x});
    }
  }

  /** Where the entries with the owner and the type asked for are. */
  ghost function Asked(s: seq<Option<Entry>>, owner: Option<nat>, typ: nat): set<nat> {
    set k: nat | k < |s| && s[k].Some? && (owner.None? || s[k].value.owner == owner.value)
                 && (typ == 0 || s[k].value.typ == typ)
  }

  lemma Counted(s: seq<Option<Entry>>, owner: Option<nat>, typ: nat)
    ensures |Matching(s, owner, typ)| == |Asked(s, owner, typ)|
  {
    var p, ks := PlacesOf(s, owner, typ), Asked(s, owner, typ);
    forall j, k | 0 <= j < k < |p| ensures p[j] < p[k] { PlacesInOrder(s, owner, typ, j, k); }
    forall x: nat ensures x in ks <==> x in p {
      if x in ks { var k := PlaceIsThere(s, owner, typ, x); }
      if x in p {
        var k :| 0 <= k < |p| && p[k] == x;
        PlaceShows(s, owner, typ, k);
      }
    }
    AllIn(p, ks);
  }

  lemma {:induction false} MatchingConcat(a: seq<Option<Entry>>, b: seq<Option<Entry>>, owner: Option<nat>, typ: nat)
    ensures Matching(a + b, owner, typ) == Matching(a, owner, typ) + Matching(b, owner, typ)
    decreases |b|
  {
    if b == [] {
      assert a + b == a;
    } else {
      assert (a + b)[..|a + b| - 1] == a + b[..|b| - 1];
      MatchingConcat(a, b[..|b| - 1], owner, typ);
    }
  }

  function Items(s: seq<Entry>): (r: seq<Option<Entry>>)
    ensures |r| == |s|
  {
    seq(|s|, i requires 0 <= i < |s| => Some(s[i]))
  }

  function Nothing(n: nat): (r: seq<Option<Entry>>)
    ensures |r| == n
  {
    seq(n, i => None)
  }

  /** The last n of s, or all. */
  function Last(s: seq<Entry>, n: nat): seq<Entry> {
    if |s| <= n then s else s[|s| - n..]
  }

  /** A ring of size n that was given all of history, from the oldest place on. */
  function Ring(history: seq<Entry>, n: nat): seq<Option<Entry>> {
    Nothing(Max(0, n - |history|)) + Items(Last(history, n))
  }

  lemma {:induction false} NothingMatches(n: nat, owner: Option<nat>, typ: nat)
    ensures Matching(Nothing(n), owner, typ) == []
  {
    if n > 0 {
      assert Nothing(n)[..n - 1] == Nothing(n - 1);
      NothingMatches(n - 1, owner, typ);
    }
  }

  lemma RingMatches(history: seq<Entry>, n: nat, owner: Option<nat>, typ: nat)
    ensures Matching(Ring(history, n), owner, typ) == Matching(Items(Last(history, n)), owner, typ)
  {
    MatchingConcat(Nothing(Max(0, n - |history|)), Items(Last(history, n)), owner, typ);
    NothingMatches(Max(0, n - |history|), owner, typ);
    assert [] + Matching(Items(Last(history, n)), owner, typ) == Matching(Items(Last(history, n)), owner, typ);
  }

  /** Place i of the history is among the last n. */
  lemma PlaceOf(history: seq<Entry>, n: nat, i: nat)
    requires i < |history| <= i + n
    ensures var from, s := Max(0, |history| - n), Items(Last(history, n));
            0 <= i - from < |s| && s[i - from] == Some(history[i])
  {
  }

  lemma PlaceFrom(history: seq<Entry>, n: nat, x: nat)
    requires x < |Items(Last(history, n))|
    ensures var i := x + Max(0, |history| - n);
            i < |history| <= i + n && Items(Last(history, n))[x] == Some(history[i])
  {
  }

  /** The entries wanted among the last n, and their places in the history. */
  lemma PlacesInHistory(history: seq<Entry>, n: nat, owner: Option<nat>, typ: nat, its: seq<Entry>)
    returns (p: seq<nat>)
    requires its == Matching(Ring(history, n), owner, typ)
    ensures its == Matching(Items(Last(history, n)), owner, typ)
    ensures owner.None? && typ == 0 ==> its == history[Max(0, |history| - n)..]
    ensures |p| == |its| && (forall j, k :: 0 <= j < k < |p| ==> p[j] < p[k])
    ensures forall k :: 0 <= k < |p| ==> p[k] < |history| <= p[k] + n && history[p[k]] == its[k]
    ensures forall it :: it in its ==> (owner.None? || it.owner == owner.value) && (typ == 0 || it.typ == typ)
    ensures forall i :: 0 <= i < |history| <= i + n
                        && (owner.None? || history[i].owner == owner.value) && (typ == 0 || history[i].typ == typ) ==>
              i in p
  {
    RingMatches(history, n, owner, typ);
    p := PlacesOfLast(history, n, owner, typ, its);
    if owner.None? && typ == 0 { AllWanted(history, n, its, p); }
  }

  lemma PlacesOfLast(history: seq<Entry>, n: nat, owner: Option<nat>, typ: nat, its: seq<Entry>)
    returns (p: seq<nat>)
    requires its == Matching(Items(Last(history, n)), owner, typ)
    ensures |p| == |its| && (forall j, k :: 0 <= j < k < |p| ==> p[j] < p[k])
    ensures forall k :: 0 <= k < |p| ==> p[k] < |history| <= p[k] + n && history[p[k]] == its[k]
    ensures forall it :: it in its ==> (owner.None? || it.owner == owner.value) && (typ == 0 || it.typ == typ)
    ensures forall i :: 0 <= i < |history| <= i + n
                        && (owner.None? || history[i].owner == owner.value) && (typ == 0 || history[i].typ == typ) ==>
              i in p
  {
    var from, s := Max(0, |history| - n), Items(Last(history, n));
    var q := PlacesOf(s, owner, typ);
    p := seq(|q|, k requires 0 <= k < |q| => q[k] + from);
    forall j, k | 0 <= j < k < |p| ensures p[j] < p[k] { PlacesInOrder(s, owner, typ, j, k); }
    forall k | 0 <= k < |p|
      ensures p[k] < |history| <= p[k] + n && history[p[k]] == its[k]
      ensures (owner.None? || its[k].owner == owner.value) && (typ == 0 || its[k].typ == typ)
    {
      PlaceShows(s, owner, typ, k);
      PlaceFrom(history, n, q[k]);
    }
    forall i | 0 <= i < |history| <= i + n
               && (owner.None? || history[i].owner == owner.value) && (typ == 0 || history[i].typ == typ)
      ensures i in p
    {
      PlaceOf(history, n, i);
      var k := PlaceIsThere(s, owner, typ, i - from);
      assert p[k] == i;
    }
  }

  /** If no owner and no type are given, that is all of them. */
  lemma AllWanted(history: seq<Entry>, n: nat, its: seq<Entry>, p: seq<nat>)
    requires |p| == |its| && forall j, k :: 0 <= j < k < |p| ==> p[j] < p[k]
    requires forall k :: 0 <= k < |p| ==> p[k] < |history| <= p[k] + n && history[p[k]] == its[k]
    requires forall i :: 0 <= i < |history| <= i + n ==> i in p
    ensures its == history[Max(0, |history| - n)..]
  {
    var from := Max(0, |history| - n);
    AllOfThem(from, |history|, p);
  }

  /** If all places from one to another are there, they are so many, one after the other. */
  lemma {:induction false} AllOfThem(from: nat, end: nat, q: seq<nat>)
    requires from <= end && forall j, k :: 0 <= j < k < |q| ==> q[j] < q[k]
    requires (forall k :: 0 <= k < |q| ==> from <= q[k] < end) && forall i :: from <= i < end ==> i in q
    ensures |q| == end - from && forall k :: 0 <= k < |q| ==> q[k] == from + k
    decreases end - from
  {
    assert q != [] ==> from <= q[0] < end;
    if from < end {
      var last := |q| - 1;
      assert end - 1 in q;
      assert q[last] == end - 1;
      forall i | from <= i < end - 1 ensures i in q[..last] { assert i in q; }
      AllOfThem(from, end - 1, q[..last]);
    }
  }

  class Logger {
    var items: array<Option<Entry>>
    var idx: nat
    ghost var history: seq<Entry>

    /** The place that is overwritten next. */
    function Start(): nat
      reads this
    {
      if idx >= items.Length then 0 else idx
    }

    ghost predicate Valid()
      reads this, items
    {
      && items.Length > 0 && idx <= items.Length
      && Turned(items[..], Start()) == Ring(history, items.Length)
    }

    constructor (sz: nat)
      requires sz > 0
      ensures Valid() && history == [] && items.Length == sz && fresh(items)
    {
      items := new Option<Entry>[sz](_ => None);
      idx := 0;
      history := [];
      new;
      assert Turned(items[..], 0) == Ring([], sz);
    }

    method Log(it: Entry)
      requires Valid()
      modifies this, items
      ensures Valid() && items == old(items) && history == old(history) + [it]
    {
      ghost var s, start := items[..], Start();
      if idx >= items.Length {
        idx := 0;
      }
      items[idx] := Some(it);
      idx := idx + 1;
      assert items[..] == s[start := Some(it)];
      Turn(s, start, Some(it));
      RingNext(history, it, items.Length);
      history := history + [it];
      assert Turned(s, start) == Ring(old(history), items.Length);
      assert Turned(items[..], Start()) == Ring(history, items.Length);
    }

    method Count(owner: Option<nat>, typ: nat) returns (n: nat)
      requires Valid()
      ensures n == |Matching(Ring(history, items.Length), owner, typ)|
      ensures n == |Asked(items[..], owner, typ)|
    {
      n := 0;
      for k := 0 to items.Length
        invariant n == |Matching(items[..k], owner, typ)|
      {
        assert items[..k + 1][..k] == items[..k];
        if Wanted(items[k], owner, typ) {
          n := n + 1;
        }
      }
      ghost var s, start := items[..], Start();
      assert s[..start] + s[start..] == items[..items.Length];
      MatchingConcat(s[..start], s[start..], owner, typ);
      MatchingConcat(s[start..], s[..start], owner, typ);
      assert s == items[..items.Length];
      Counted(s, owner, typ);
    }

    /**
     The entries wanted among the last ones logged, as many as the ring holds, oldest first; p are their places
     in the history.
     */
    method Filter(owner: Option<nat>, typ: nat) returns (its: seq<Entry>, ghost p: seq<nat>)
      requires Valid()
      ensures its == Matching(Items(Last(history, items.Length)), owner, typ)
      ensures |p| == |its| && forall j, k :: 0 <= j < k < |p| ==> p[j] < p[k]
      ensures forall k :: 0 <= k < |p| ==> p[k] < |history| <= p[k] + items.Length && history[p[k]] == its[k]
      ensures forall it :: it in its ==> (owner.None? || it.owner == owner.value) && (typ == 0 || it.typ == typ)
      ensures forall i :: 0 <= i < |history| <= i + items.Length
                          && (owner.None? || history[i].owner == owner.value) && (typ == 0 || history[i].typ == typ) ==>
                i in p
      ensures owner.None? && typ == 0 ==> its == history[Max(0, |history| - items.Length)..]
    {
      var n := Count(owner, typ);
      its := Gather(owner, typ, n, Turned(items[..], Start()));
      p := PlacesInHistory(history, items.Length, owner, typ, its);
    }

    /** Walks around the ring from its oldest entry on until n have been found. */
    method Gather(owner: Option<nat>, typ: nat, n: nat, ghost ring: seq<Option<Entry>>) returns (its: seq<Entry>)
      requires items.Length > 0 && idx <= items.Length && ring == Turned(items[..], Start())
      requires n == |Matching(ring, owner, typ)|
      ensures its == Matching(ring, owner, typ)
    {
      its := [];
      var i := idx;
      ghost var j := 0;
      AllMatched(ring, 0, owner, typ);
      while |its| < n
        invariant j <= items.Length && its == Matching(ring[..j], owner, typ)
        invariant i <= items.Length
        invariant j < items.Length ==> (if i == items.Length then 0 else i) == Place(Start(), j, items.Length)
        decreases items.Length - j
      {
        AllMatched(ring, j, owner, typ);
        if i >= items.Length {
          i := 0;
        }
        TurnedAt(items[..], Start(), j);
        assert ring[..j + 1][..j] == ring[..j];
        if Wanted(items[i], owner, typ) {
          its := its + [items[i].value];
        }
        i, j := i + 1, j + 1;
      }
      AllMatched(ring, j, owner, typ);
    }
  }

  /** A part of the ring that has as many matches as the whole has all of them. */
  lemma AllMatched(ring: seq<Option<Entry>>, j: nat, owner: Option<nat>, typ: nat)
    requires j <= |ring|
    ensures |Matching(ring[..j], owner, typ)| <= |Matching(ring, owner, typ)|
    ensures |Matching(ring[..j], owner, typ)| == |Matching(ring, owner, typ)| ==>
              Matching(ring[..j], owner, typ) == Matching(ring, owner, typ)
    ensures j == |ring| ==> ring[..j] == ring
  {
    MatchingConcat(ring[..j], ring[j..], owner, typ);
    assert ring[..j] + ring[j..] == ring;
  }

  /** The place of the j-th oldest entry. */
  function Place(start: nat, j: nat, n: nat): int {
    if start + j < n then start + j else start + j - n
  }

  function Turned(s: seq<Option<Entry>>, start: nat): seq<Option<Entry>>
    requires start <= |s|
  {
    s[start..] + s[..start]
  }

  lemma TurnedAt(s: seq<Option<Entry>>, start: nat, j: nat)
    requires start < |s| && j < |s|
    ensures 0 <= Place(start, j, |s|) < |s| && Turned(s, start)[j] == s[Place(start, j, |s|)]
  {
  }

  /** Overwriting the oldest entry turns the ring by one. */
  lemma Turn(s: seq<Option<Entry>>, start: nat, x: Option<Entry>)
    requires start < |s|
    ensures Turned(s[start := x], if start + 1 == |s| then 0 else start + 1) == Turned(s, start)[1..] + [x]
  {
  }

  lemma RingNext(history: seq<Entry>, it: Entry, n: nat)
    requires n > 0
    ensures Ring(history + [it], n) == Ring(history, n)[1..] + [Some(it)]
  {
    var all, front := history + [it], Ring(history, n);
    if |history| < n {
      assert Ring(all, n) == Nothing(n - |all|) + (Items(history) + [Some(it)]);
      assert front[1..] == Nothing(n - |all|) + Items(history);
    } else {
      assert Last(all, n) == Last(history, n)[1..] + [it];
      assert Nothing(0) == [];
    }
  }
}
