/** Small shared definitions: optional values, store writes, minimum and maximum, powers of two, sizes of sets. */
module Prelude {

  datatype Option<+T> = None | Some(value: T) {
    function GetOr(default: T): T {
      if Some? then value else default
    }
  }

  /** A store write that succeeds, one that is carried out but reports an error, and one that is not carried out. */
  datatype StoreWrite = Kept | KeptUnseen | Unkept

  function Min(a: int, b: int): int {
    if a <= b then a else b
  }

  function Max(a: int, b: int): int {
    if a >= b then a else b
  }

  function Pow2(n: nat): (r: nat)
    ensures r >= 1
  {
    if n == 0 then 1 else 2 * Pow2(n - 1)
  }

  lemma {:induction false} Pow2Monotone(m: nat, n: nat)
    requires m <= n
    ensures Pow2(m) <= Pow2(n)
    decreases n
  {
    if m < n { Pow2Monotone(m, n - 1); }
  }

  function One(b: bool): nat {
    if b then 1 else 0
  }

  /** Two sets that differ at most in `k` differ in size by at most that. */
  lemma SizesDiffer(a: set<nat>, b: set<nat>, k: nat)
    requires forall x :: x != k ==> (x in a <==> x in b)
    ensures |b| == |a| + One(k in b) - One(k in a)
  {
    if k in a && k !in b { assert a == b + {k}; }
    else if k in b && k !in a { assert b == a + {k}; }
    else { assert a == b; }
  }

  /** A number above all that are in use. */
  lemma {:induction false} FreshNat(used: set<nat>) returns (n: nat)
    ensures forall r :: r in used ==> r < n
  {
    if used == {} {
      n := 0;
    } else {
      var r :| r in used;
      var m := FreshNat(used - {r});
      n := Max(m, r + 1);
      assert forall q :: q in used ==> q == r || q in used - {r};
    }
  }
}
