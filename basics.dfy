/** Small shared vocabulary: an optional value, integer min/max, and the substring
    tests that every keyword rule of the trainer is built from. */
module Basics {

  datatype Option<+T> = None | Some(value: T)

  function Min(a: int, b: int): (r: int)
    ensures r <= a && r <= b && (r == a || r == b)
  {
    if a <= b then a else b
  }

  function Max(a: int, b: int): (r: int)
    ensures r >= a && r >= b && (r == a || r == b)
  {
    if a >= b then a else b
  }

  /** `p` occurs in `s` starting at index `i`. */
  predicate OccursAt(s: string, p: string, i: int)
  {
    0 <= i && i + |p| <= |s| && s[i..i + |p|] == p
  }

  /** Python's `p in s` on strings: `p` is a contiguous substring of `s`, tried at each start. */
  predicate Contains(s: string, p: string)
    decreases |s|
  {
    |p| <= |s| && (s[..|p|] == p || Contains(s[1..], p))
  }

  /** Python's `any(k in s for k in keys)`. */
  predicate ContainsAny(s: string, keys: seq<string>)
    decreases |keys|
  {
    keys != [] && (Contains(s, keys[0]) || ContainsAny(s, keys[1..]))
  }

  /** `Contains` holds exactly when there is a position where `p` occurs. */
  lemma {:induction false} ContainsIffOccurs(s: string, p: string)
    ensures Contains(s, p) <==> exists i :: OccursAt(s, p, i)
    decreases |s|
  {
    if |p| <= |s| {
      if s[..|p|] != p {
        ContainsIffOccurs(s[1..], p);
        if Contains(s[1..], p) {
          var i :| OccursAt(s[1..], p, i);
          assert s[i + 1..i + 1 + |p|] == s[1..][i..i + |p|];
          assert OccursAt(s, p, i + 1);
        }
        if exists i :: OccursAt(s, p, i) {
          var i :| OccursAt(s, p, i);
          assert i != 0;
          assert s[1..][i - 1..i - 1 + |p|] == s[i..i + |p|];
          assert OccursAt(s[1..], p, i - 1);
        }
      } else {
        assert OccursAt(s, p, 0);
      }
    }
  }

  /** `ContainsAny` holds exactly when one of the keys occurs. */
  lemma {:induction false} ContainsAnyIffSome(s: string, keys: seq<string>)
    ensures ContainsAny(s, keys) <==> exists k :: k in keys && Contains(s, k)
    decreases |keys|
  {
    if keys != [] {
      ContainsAnyIffSome(s, keys[1..]);
      if Contains(s, keys[0]) {
        assert keys[0] in keys;
      }
      if ContainsAny(s, keys[1..]) {
        var k :| k in keys[1..] && Contains(s, k);
        assert k in keys;
      }
      if exists k :: k in keys && Contains(s, k) {
        var k :| k in keys && Contains(s, k);
        if k != keys[0] {
          assert k in keys[1..];
        }
      }
    }
  }

  /** Python's `sum(1 for k in keys if k in s)`: how many of `keys` occur in `s`. */
  function CountContained(s: string, keys: seq<string>): (r: int)
    ensures 0 <= r <= |keys|
    ensures r == 0 <==> !ContainsAny(s, keys)
    decreases |keys|
  {
    if keys == [] then 0
    else CountContained(s, keys[1..]) + (if Contains(s, keys[0]) then 1 else 0)
  }

  /** Python's `s.split(c)[0]`: the part of `s` before the first `c` (all of `s` if there is none). */
  function BeforeFirst(s: string, c: char): (r: string)
    ensures r <= s
    ensures c !in r
    ensures c in s ==> |r| < |s| && s[|r|] == c
    ensures c !in s ==> r == s
    decreases |s|
  {
    if s == [] then []
    else if s[0] == c then []
    else [s[0]] + BeforeFirst(s[1..], c)
  }

  /** A string contains itself. */
  lemma ContainsSelf(p: string)
    ensures Contains(p, p)
  {
    assert p[..|p|] == p;
  }

  /** A substring of `x` is still found after anything is appended to `x`. */
  lemma ContainsLeft(x: string, y: string, p: string)
    requires Contains(x, p)
    ensures Contains(x + y, p)
  {
    ContainsIffOccurs(x, p);
    var i :| OccursAt(x, p, i);
    assert (x + y)[i..i + |p|] == x[i..i + |p|];
    assert OccursAt(x + y, p, i);
    ContainsIffOccurs(x + y, p);
  }

  /** A substring of `y` is still found after anything is put in front of `y`. */
  lemma ContainsRight(x: string, y: string, p: string)
    requires Contains(y, p)
    ensures Contains(x + y, p)
  {
    ContainsIffOccurs(y, p);
    var i :| OccursAt(y, p, i);
    assert (x + y)[|x| + i..|x| + i + |p|] == y[i..i + |p|];
    assert OccursAt(x + y, p, |x| + i);
    ContainsIffOccurs(x + y, p);
  }
}
