/** Shared vocabulary: optional values, 3-vectors, and the few JavaScript
  * idioms (`x || d` defaults, `String.prototype.includes`) the scene code uses. */
module Common {

  datatype Option<T> = None | Some(value: T)

  /** A Three.js `Vector3`, one JS number per axis. */
  datatype Vec3 = Vec3(x: real, y: real, z: real)

  const Origin: Vec3 := Vec3(0.0, 0.0, 0.0)

  function Add(a: Vec3, b: Vec3): (r: Vec3)
    ensures r.x - a.x == b.x && r.y - a.y == b.y && r.z - a.z == b.z
  {
    Vec3(a.x + b.x, a.y + b.y, a.z + b.z)
  }

  function Sub(a: Vec3, b: Vec3): (r: Vec3)
    ensures Add(b, r) == a
  {
    Vec3(a.x - b.x, a.y - b.y, a.z - b.z)
  }

  function Scale(a: Vec3, k: real): Vec3
  {
    Vec3(a.x * k, a.y * k, a.z * k)
  }

  /** The square of `Vector3.length()`; comparing squares avoids `sqrt`. */
  function SqLength(a: Vec3): (r: real)
    ensures r >= 0.0
  {
    a.x * a.x + a.y * a.y + a.z * a.z
  }

  function SqDistance(a: Vec3, b: Vec3): (r: real)
    ensures r >= 0.0
  {
    SqLength(Sub(a, b))
  }

  /** `THREE.Vector3.lerpVectors(a, b, t)`: a + (b - a)·t. */
  function Lerp(a: Vec3, b: Vec3, t: real): (r: Vec3)
    ensures t == 0.0 ==> r == a
    ensures t == 1.0 ==> r == b
  {
    Vec3(a.x + (b.x - a.x) * t, a.y + (b.y - a.y) * t, a.z + (b.z - a.z) * t)
  }

  /** JavaScript `x || d` on a number that is never NaN: 0 is the only falsy value. */
  function OrDefault(x: real, d: real): (r: real)
    ensures r == x || r == d
    ensures r != 0.0 || d == 0.0
  {
    if x == 0.0 then d else x
  }

  function Max(a: real, b: real): (r: real)
    ensures r >= a && r >= b && (r == a || r == b)
  {
    if a >= b then a else b
  }

  function Min(a: real, b: real): (r: real)
    ensures r <= a && r <= b && (r == a || r == b)
  {
    if a <= b then a else b
  }

  /** `s.startsWith(p)`. */
  predicate StartsWith(s: string, p: string)
  {
    |p| <= |s| && s[..|p|] == p
  }

  /** `p` occurs in `s` starting at index `i`. */
  predicate Window(s: string, p: string, i: nat)
  {
    i + |p| <= |s| && s[i..i + |p|] == p
  }

  /** `s.includes(p)`, by scanning every start position from `from` onwards. */
  predicate ContainsFrom(s: string, p: string, from: nat)
    decreases |s| - from
  {
    from + |p| <= |s| && (s[from..from + |p|] == p || ContainsFrom(s, p, from + 1))
  }

  predicate Contains(s: string, p: string)
  {
    ContainsFrom(s, p, 0)
  }

  lemma {:induction false} ContainsFromMeaning(s: string, p: string, from: nat)
    ensures ContainsFrom(s, p, from) <==> exists i: nat :: from <= i && Window(s, p, i)
    decreases |s| - from
  {
    if from + |p| <= |s| {
      ContainsFromMeaning(s, p, from + 1);
      if ContainsFrom(s, p, from) {
        if s[from..from + |p|] == p {
          assert Window(s, p, from);
        }
      }
      if exists i: nat :: from <= i && Window(s, p, i) {
        var i: nat :| from <= i && Window(s, p, i);
        if i != from {
          assert from + 1 <= i;
        }
      }
    }
  }

  /** `includes` holds exactly when some window of `s` equals `p`. */
  lemma ContainsMeaning(s: string, p: string)
    ensures Contains(s, p) <==> exists i: nat :: Window(s, p, i)
  {
    ContainsFromMeaning(s, p, 0);
  }

  /** A copy of `p` at `i`, character by character, is a witness for `includes`. */
  lemma ContainsAt(s: string, p: string, i: nat)
    requires i + |p| <= |s| && forall k :: 0 <= k < |p| ==> s[i + k] == p[k]
    ensures Contains(s, p)
  {
    assert Window(s, p, i) by {
      assert s[i..i + |p|] == p;
    }
    ContainsMeaning(s, p);
  }

  /** `p` does not occur when no position holding `p`'s first character starts a copy of `p`. */
  lemma NotContains(s: string, p: string)
    requires |p| > 0
    requires forall i: nat :: i + |p| <= |s| && s[i] == p[0] ==> s[i..i + |p|] != p
    ensures !Contains(s, p)
  {
    ContainsMeaning(s, p);
    if exists i: nat :: Window(s, p, i) {
      var i: nat :| Window(s, p, i);
      WindowHead(s, p, i);
      assert false;
    }
  }

  lemma WindowHead(s: string, p: string, i: nat)
    requires Window(s, p, i) && |p| > 0
    ensures s[i] == p[0] && s[i..i + |p|] == p
  {
    assert s[i..i + |p|][0] == s[i];
  }

  /** The number of occurrences of `k` in `xs`. */
  function Count<T(==)>(xs: seq<T>, k: T): nat
  {
    if xs == [] then 0 else (if xs[0] == k then 1 else 0) + Count(xs[1..], k)
  }

  /** `xs.filter(keep)`. */
  function Filter<T>(xs: seq<T>, keep: T -> bool): seq<T>
  {
    if xs == [] then [] else (if keep(xs[0]) then [xs[0]] else []) + Filter(xs[1..], keep)
  }

  lemma {:induction false} CountConcat<T>(a: seq<T>, b: seq<T>, k: T)
    ensures Count(a + b, k) == Count(a, k) + Count(b, k)
  {
    if a == [] {
      assert a + b == b;
    } else {
      assert (a + b)[0] == a[0];
      assert (a + b)[1..] == a[1..] + b;
      CountConcat(a[1..], b, k);
    }
  }

  /** Filtering keeps every occurrence of a kept value and drops every other one. */
  lemma {:induction false} CountFilter<T>(xs: seq<T>, keep: T -> bool, k: T)
    ensures Count(Filter(xs, keep), k) == if keep(k) then Count(xs, k) else 0
  {
    if xs != [] {
      var head := if keep(xs[0]) then [xs[0]] else [];
      CountConcat(head, Filter(xs[1..], keep), k);
      CountFilter(xs[1..], keep, k);
    }
  }

  /** No value occurs twice. */
  predicate Distinct<T(==)>(s: seq<T>)
  {
    forall i, j :: 0 <= i < j < |s| ==> s[i] != s[j]
  }

  /** In a list without repetitions every member occurs exactly once. */
  lemma {:induction false} DistinctCount<T>(s: seq<T>, k: T)
    requires Distinct(s)
    ensures Count(s, k) == if k in s then 1 else 0
  {
    if s != [] {
      assert Distinct(s[1..]) by {
        forall i, j | 0 <= i < j < |s[1..]| ensures s[1..][i] != s[1..][j] {
          assert s[1..][i] == s[i + 1] && s[1..][j] == s[j + 1];
        }
      }
      DistinctCount(s[1..], k);
      if s[0] == k {
        assert k !in s[1..] by {
          forall i | 0 <= i < |s[1..]| ensures s[1..][i] != k {
            assert s[1..][i] == s[i + 1];
          }
        }
      } else {
        assert k in s <==> k in s[1..] by {
          assert s == [s[0]] + s[1..];
        }
      }
    }
  }

  /** The product of two non-negative numbers is not negative. */
  lemma NonNegativeProduct(a: real, b: real)
    requires a >= 0.0 && b >= 0.0
    ensures a * b >= 0.0
  {
  }

  /** The product of two positive numbers is positive. */
  lemma PositiveProduct(a: real, b: real)
    requires a > 0.0 && b > 0.0
    ensures a * b > 0.0
  {
  }
}
