// Finite sums over the keys of a storage map, and running totals over a log.
module Sums {

  // What key `k` contributes to the sum of `w` over `keys`: nothing when it is not a key.
  function At(keys: set<nat>, w: nat -> int, k: nat): int {
    if k in keys then w(k) else 0
  }

  ghost function Sum(keys: set<nat>, w: nat -> int): int {
    if keys == {} then 0 else
      var k :| k in keys;
      w(k) + Sum(keys - {k}, w)
  }

  lemma {:induction false} SumRemove(keys: set<nat>, w: nat -> int, k: nat)
    requires k in keys
    ensures Sum(keys, w) == w(k) + Sum(keys - {k}, w)
  {
    var x :| x in keys && Sum(keys, w) == w(x) + Sum(keys - {x}, w);
    if x != k {
      SumRemove(keys - {x}, w, k);
      SumRemove(keys - {k}, w, x);
      assert keys - {x} - {k} == keys - {k} - {x};
    }
  }

  lemma {:induction false} SumVanishes(keys: set<nat>, w: nat -> int)
    requires forall k :: At(keys, w, k) == 0
    ensures Sum(keys, w) == 0
  {
    if keys != {} {
      var x :| x in keys;
      SumRemove(keys, w, x);
      assert At(keys, w, x) == 0;
      forall k ensures At(keys - {x}, w, k) == 0 {
        assert At(keys, w, k) == 0;
      }
      SumVanishes(keys - {x}, w);
    }
  }

  // Sums over different key sets agree when every key contributes the same to both.
  lemma {:induction false} SumAgree(a: set<nat>, v: nat -> int, b: set<nat>, w: nat -> int)
    requires forall k :: At(a, v, k) == At(b, w, k)
    ensures Sum(a, v) == Sum(b, w)
    decreases |a|
  {
    if a == {} {
      forall k ensures At(b, w, k) == 0 {
        assert At(a, v, k) == At(b, w, k);
      }
      SumVanishes(b, w);
    } else {
      var x :| x in a;
      SumRemove(a, v, x);
      assert At(a, v, x) == At(b, w, x);
      if x in b {
        SumRemove(b, w, x);
      } else {
        assert b - {x} == b;
      }
      forall k ensures At(a - {x}, v, k) == At(b - {x}, w, k) {
        assert At(a, v, k) == At(b, w, k);
      }
      SumAgree(a - {x}, v, b - {x}, w);
    }
  }

  // Two sums that differ at one key differ by what that key contributes.
  lemma SumChange(a: set<nat>, v: nat -> int, b: set<nat>, w: nat -> int, x: nat)
    requires forall k :: k != x ==> At(a, v, k) == At(b, w, k)
    ensures Sum(b, w) - Sum(a, v) == At(b, w, x) - At(a, v, x)
  {
    forall k ensures At(a - {x}, v, k) == At(b - {x}, w, k) {
      assert k != x ==> At(a, v, k) == At(b, w, k);
    }
    SumAgree(a - {x}, v, b - {x}, w);
    if x in a { SumRemove(a, v, x); } else { assert a - {x} == a; }
    if x in b { SumRemove(b, w, x); } else { assert b - {x} == b; }
  }

  lemma {:induction false} SumNonNegative(keys: set<nat>, w: nat -> int)
    requires forall k :: At(keys, w, k) >= 0
    ensures Sum(keys, w) >= 0
  {
    if keys != {} {
      var x :| x in keys;
      SumRemove(keys, w, x);
      assert At(keys, w, x) >= 0;
      forall k ensures At(keys - {x}, w, k) >= 0 {
        assert At(keys, w, k) >= 0;
      }
      SumNonNegative(keys - {x}, w);
    }
  }

  lemma TermBelowSum(keys: set<nat>, w: nat -> int, x: nat)
    requires forall k :: At(keys, w, k) >= 0
    ensures At(keys, w, x) <= Sum(keys, w)
  {
    forall k ensures At(keys - {x}, w, k) >= 0 {
      assert At(keys, w, k) >= 0;
    }
    SumNonNegative(keys - {x}, w);
    if x in keys { SumRemove(keys, w, x); } else { assert keys - {x} == keys; }
  }

  lemma {:induction false} SumOrdered(keys: set<nat>, v: nat -> int, w: nat -> int)
    requires forall k :: At(keys, v, k) <= At(keys, w, k)
    ensures Sum(keys, v) <= Sum(keys, w)
  {
    if keys != {} {
      var x :| x in keys;
      SumRemove(keys, v, x);
      SumRemove(keys, w, x);
      assert At(keys, v, x) <= At(keys, w, x);
      forall k ensures At(keys - {x}, v, k) <= At(keys - {x}, w, k) {
        assert At(keys, v, k) <= At(keys, w, k);
      }
      SumOrdered(keys - {x}, v, w);
    }
  }

  // If term by term a - b == c - d, the same holds of the sums.
  lemma {:induction false} SumBalance(keys: set<nat>, a: nat -> int, b: nat -> int, c: nat -> int, d: nat -> int)
    requires forall k :: At(keys, a, k) - At(keys, b, k) == At(keys, c, k) - At(keys, d, k)
    ensures Sum(keys, a) - Sum(keys, b) == Sum(keys, c) - Sum(keys, d)
  {
    if keys != {} {
      var x :| x in keys;
      SumRemove(keys, a, x); SumRemove(keys, b, x); SumRemove(keys, c, x); SumRemove(keys, d, x);
      assert At(keys, a, x) - At(keys, b, x) == At(keys, c, x) - At(keys, d, x);
      var rest := keys - {x};
      forall k ensures At(rest, a, k) - At(rest, b, k) == At(rest, c, k) - At(rest, d, k) {
        assert At(keys, a, k) - At(keys, b, k) == At(keys, c, k) - At(keys, d, k);
      }
      SumBalance(rest, a, b, c, d);
    }
  }

  // Running total of `w` over a log that only grows at its end.
  function Total<E>(log: seq<E>, w: E -> int): int {
    if log == [] then 0 else Total(log[..|log| - 1], w) + w(log[|log| - 1])
  }

  lemma TotalAppend<E>(log: seq<E>, e: E, w: E -> int)
    ensures Total(log + [e], w) == Total(log, w) + w(e)
  {
    assert (log + [e])[..|log|] == log;
  }

  lemma {:induction false} TotalNonNegative<E>(log: seq<E>, w: E -> int)
    requires forall e :: e in log ==> w(e) >= 0
    ensures Total(log, w) >= 0
  {
    if log != [] {
      TotalNonNegative(log[..|log| - 1], w);
    }
  }

  lemma {:induction false} TotalWitness<E>(log: seq<E>, w: E -> int) returns (e: E)
    requires Total(log, w) > 0
    ensures e in log && w(e) > 0
  {
    if w(log[|log| - 1]) > 0 {
      e := log[|log| - 1];
    } else {
      e := TotalWitness(log[..|log| - 1], w);
    }
  }

  lemma {:induction false} TotalOrdered<E>(log: seq<E>, v: E -> int, w: E -> int)
    requires forall e :: e in log ==> v(e) <= w(e)
    ensures Total(log, v) <= Total(log, w)
  {
    if log != [] {
      TotalOrdered(log[..|log| - 1], v, w);
    }
  }
}
