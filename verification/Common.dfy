/** Types shared by the modules of this project. */
module Common {

  datatype Option<+T> = None | Some(value: T)

  /** An octet on the wire or in a file. */
  type byte = x: int | 0 <= x < 256

  ghost predicate Distinct<T>(s: seq<T>) {
    forall j, k :: 0 <= j < k < |s| ==> s[j] != s[k]
  }

  function Min(x: int, y: int): int {
    if x <= y then x else y
  }

  function Max(x: int, y: int): int {
    if x >= y then x else y
  }

  /** A number cut to 32 bits. */
  function Low32(n: nat): (r: nat)
    ensures r < 0x1_0000_0000
    ensures n < 0x1_0000_0000 ==> r == n
    ensures n >= 0x1_0000_0000 ==> n - r >= 0x1_0000_0000
  {
    n % 0x1_0000_0000
  }

  lemma Above(s: set<nat>) returns (n: nat)
    ensures forall m :: m in s ==> m < n
  {
    n := 0;
    if s != {} {
      var x :| x in s;
      var k := Above(s - {x});
      n := Max(k, x + 1);
      forall m | m in s ensures m < n { if m != x { assert m in s - {x}; } }
    }
  }

  /** There is always another number. */
  lemma Unused(s: set<nat>)
    ensures exists n: nat :: n !in s
  {
    var n := Above(s);
    assert n !in s;
  }
}
