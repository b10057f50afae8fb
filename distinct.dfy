/**
  Distinctness of the elements of a sequence, and its link with the number of
  different elements. Used to show that no two tools share a name.
*/
module Distinctness {

  ghost predicate Distinct<T>(s: seq<T>)
  {
    forall i, j :: 0 <= i < j < |s| ==> s[i] != s[j]
  }

  function Elements<T>(s: seq<T>): set<T>
  {
    set x | x in s
  }

  lemma {:induction false} ElementsAppend<T>(s: seq<T>, x: T)
    ensures Elements(s + [x]) == Elements(s) + {x}
  {
    assert forall y :: y in s + [x] <==> y in s || y == x;
  }

  /** A sequence never has more different elements than it has positions. */
  lemma {:induction false} ElementsBound<T>(s: seq<T>)
    ensures |Elements(s)| <= |s|
  {
    if s != [] {
      var p := s[..|s| - 1];
      assert s == p + [s[|s| - 1]];
      ElementsAppend(p, s[|s| - 1]);
      ElementsBound(p);
    }
  }

  /** Without repetitions, a sequence has exactly as many different elements as positions. */
  lemma {:induction false} DistinctElements<T>(s: seq<T>)
    requires Distinct(s)
    ensures |Elements(s)| == |s|
  {
    if s != [] {
      var p := s[..|s| - 1];
      assert s == p + [s[|s| - 1]];
      ElementsAppend(p, s[|s| - 1]);
      assert s[|s| - 1] !in p by {
        forall i | 0 <= i < |p| ensures p[i] != s[|s| - 1] {
          assert s[i] == p[i];
        }
      }
      DistinctElements(p);
    }
  }

  /** Conversely, as many different elements as positions means no repetition. */
  lemma ElementsDistinct<T>(s: seq<T>)
    requires |Elements(s)| == |s|
    ensures Distinct(s)
  {
    if !Distinct(s) {
      var i, j :| 0 <= i < j < |s| && s[i] == s[j];
      var t := s[..j] + s[j + 1..];
      assert Elements(t) == Elements(s) by {
        forall y | y in s ensures y in t {
          var k :| 0 <= k < |s| && s[k] == y;
          if k < j { assert t[k] == y; }
          else if k == j { assert t[i] == y; }
          else { assert t[k - 1] == y; }
        }
      }
      ElementsBound(t);
      assert false;
    }
  }

  lemma SubsetSize<T>(a: set<T>, b: set<T>)
    requires a <= b
    ensures |a| <= |b|
  {
    assert b == a + (b - a);
  }

  /**
    A number computed from a string that is cheap to evaluate on a literal:
    the length, the last character and the eighth character from the end.
  */
  function Fingerprint(s: string): int
  {
    if |s| < 8 then |s| else |s| * 16384 + 128 * (s[|s| - 1] as int) + (s[|s| - 8] as int)
  }

  lemma {:induction false} IncreasingFrom(s: seq<string>, i: nat, j: nat)
    requires forall k :: 0 <= k < |s| - 1 ==> Fingerprint(s[k]) < Fingerprint(s[k + 1])
    requires i < j < |s|
    ensures Fingerprint(s[i]) < Fingerprint(s[j])
    decreases j - i
  {
    if i + 1 < j {
      IncreasingFrom(s, i + 1, j);
    }
  }

  /** Strings whose fingerprints strictly increase along the sequence are all different. */
  lemma IncreasingIsDistinct(s: seq<string>)
    requires forall k :: 0 <= k < |s| - 1 ==> Fingerprint(s[k]) < Fingerprint(s[k + 1])
    ensures Distinct(s)
  {
    forall i, j | 0 <= i < j < |s| ensures s[i] != s[j] {
      IncreasingFrom(s, i, j);
    }
  }
}
