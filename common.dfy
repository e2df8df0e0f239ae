/** Shared vocabulary of the model: optional values, ground-plane positions,
    unit identities, the engine's frame rate and the `std::list::remove`
    and container-iteration helpers the C++ code relies on. */
module Common {

  datatype Option<T> = None | Some(value: T)

  /** A position on the ground plane (x, z) in elmos; height is not modelled. */
  datatype Pos = Pos(x: int, z: int)

  /** Identity of an engine unit (a `CCircuitUnit*` in the source). */
  type UnitId = nat

  /** Simulation frames per second of the Spring engine. */
  const FRAMES_PER_SEC: int := 30

  /** Size of one map square in elmos. */
  const SQUARE_SIZE: int := 8

  /** `IBuilderTask::Priority`. */
  datatype Priority = LOW | NORMAL | HIGH

  /** Squared ground distance, as the `qdist` lambdas compute it. */
  function QDist(a: Pos, b: Pos): (d: int)
    ensures d >= 0
    ensures d == 0 <==> a == b
  {
    var dx := a.x - b.x;
    var dz := a.z - b.z;
    SquareNonNegative(dx);
    SquareNonNegative(dz);
    SquareZero(dx);
    SquareZero(dz);
    dx * dx + dz * dz
  }

  lemma SquareNonNegative(n: int)
    ensures n * n >= 0
  {
    if n < 0 {
      assert n * n == (-n) * (-n);
    }
  }

  lemma SquareZero(n: int)
    ensures n * n == 0 <==> n == 0
  {
    if n > 0 {
      assert n * n >= n;
    } else if n < 0 {
      assert n * n == (-n) * (-n) >= -n;
    }
  }

  /** No element occurs twice. */
  predicate NoDup<T(==)>(s: seq<T>) {
    forall i, j :: 0 <= i < j < |s| ==> s[i] != s[j]
  }

  /** `std::list::remove(x)`: every element equal to `x` is dropped, the
      others keep their relative order. */
  function RemoveAll<T(==)>(s: seq<T>, x: T): (r: seq<T>)
    ensures x !in r
    ensures forall i :: 0 <= i < |r| ==> r[i] in s && r[i] != x
    ensures forall i :: 0 <= i < |s| && s[i] != x ==> s[i] in r
    ensures |r| <= |s|
  {
    if s == [] then []
    else if s[0] == x then RemoveAll(s[1..], x)
    else [s[0]] + RemoveAll(s[1..], x)
  }

  /** Removing an element that is present exactly once shortens the list by one. */
  lemma {:induction false} RemoveAllOnce<T>(s: seq<T>, x: T)
    requires NoDup(s) && x in s
    ensures |RemoveAll(s, x)| == |s| - 1
    ensures NoDup(RemoveAll(s, x))
  {
    if s[0] == x {
      assert x !in s[1..] by {
        forall k | 0 <= k < |s| - 1 ensures s[1..][k] != x {
          assert s[k + 1] != s[0];
        }
      }
      RemoveAllAbsent(s[1..], x);
      NoDupTail(s);
    } else {
      NoDupTail(s);
      RemoveAllOnce(s[1..], x);
      var r := RemoveAll(s[1..], x);
      assert s[0] !in s[1..] by {
        forall k | 0 <= k < |s| - 1 ensures s[1..][k] != s[0] {
          assert s[k + 1] != s[0];
        }
      }
      NoDupCons(s[0], r);
    }
  }

  /** Removing an absent element changes nothing. */
  lemma {:induction false} RemoveAllAbsent<T>(s: seq<T>, x: T)
    requires x !in s
    ensures RemoveAll(s, x) == s
  {
    if s != [] {
      assert s == [s[0]] + s[1..];
      RemoveAllAbsent(s[1..], x);
    }
  }

  lemma NoDupTail<T>(s: seq<T>)
    requires NoDup(s) && s != []
    ensures NoDup(s[1..])
  {
    forall i, j | 0 <= i < j < |s| - 1 ensures s[1..][i] != s[1..][j] {
      assert s[1..][i] == s[i + 1] && s[1..][j] == s[j + 1];
    }
  }

  lemma NoDupCons<T>(x: T, s: seq<T>)
    requires NoDup(s) && x !in s
    ensures NoDup([x] + s)
  {
    var r := [x] + s;
    forall i, j | 0 <= i < j < |r| ensures r[i] != r[j] {
      if i == 0 {
        assert r[j] == s[j - 1];
      } else {
        assert r[i] == s[i - 1] && r[j] == s[j - 1];
      }
    }
  }

  /** Walks a set in some order, as iterating a `std::set` or the keys of a
      `std::map` does: the order (by pointer value in the source) is fixed
      but unknown, so any enumeration is allowed. */
  method Enumerate<T(==)>(s: set<T>) returns (r: seq<T>)
    ensures |r| == |s|
    ensures NoDup(r)
    ensures forall x :: x in r <==> x in s
  {
    r := [];
    var rest := s;
    while rest != {}
      invariant rest <= s
      invariant |r| + |rest| == |s|
      invariant NoDup(r)
      invariant forall x :: x in r <==> x in s && x !in rest
      decreases |rest|
    {
      var x :| x in rest;
      NoDupSnoc(r, x);
      r := r + [x];
      rest := rest - {x};
    }
  }

  lemma NoDupSnoc<T>(s: seq<T>, x: T)
    requires NoDup(s) && x !in s
    ensures NoDup(s + [x])
  {
    var r := s + [x];
    forall i, j | 0 <= i < j < |r| ensures r[i] != r[j] {
      if j == |s| {
        assert r[i] == s[i];
      } else {
        assert r[i] == s[i] && r[j] == s[j];
      }
    }
  }
}
