/** Facts about sequences without repeated elements, shared by both models. */
module SeqFacts {

  /** No element occurs twice. */
  predicate Distinct<T(==)>(s: seq<T>) {
    forall i, j | 0 <= i < j < |s| :: s[i] != s[j]
  }

  /** The elements of a sequence, as a set. */
  function Elements<T>(s: seq<T>): set<T> {
    set x | x in s
  }

  /** A sequence has at least as many positions as elements, and exactly as many when
      it has no repetition. */
  lemma {:induction false} DistinctCard<T>(s: seq<T>)
    ensures |Elements(s)| <= |s|
    ensures |Elements(s)| == |s| <==> Distinct(s)
  {
    if s != [] {
      var n := |s| - 1;
      var p := s[..n];
      DistinctCard(p);
      assert s == p + [s[n]];
      assert Elements(s) == Elements(p) + {s[n]};
      if s[n] in p {
        var i :| 0 <= i < n && p[i] == s[n];
        assert s[i] == s[n];
        assert Elements(s) == Elements(p);
      } else {
        assert Distinct(s) ==> Distinct(p) by {
          forall i, j | 0 <= i < j < |p| ensures Distinct(s) ==> p[i] != p[j] {
            assert p[i] == s[i] && p[j] == s[j];
          }
        }
        assert Distinct(p) ==> Distinct(s) by {
          forall i, j | 0 <= i < j < |s| ensures Distinct(p) ==> s[i] != s[j] {
            if j < n { assert p[i] == s[i] && p[j] == s[j]; } else { assert s[i] == p[i]; }
          }
        }
      }
    }
  }

  /** In a sequence without repetition every element occurs once. */
  lemma {:induction false} DistinctMultiplicity<T>(s: seq<T>, x: T)
    requires Distinct(s)
    ensures multiset(s)[x] == if x in s then 1 else 0
  {
    if s != [] {
      assert s == [s[0]] + s[1..];
      assert Distinct(s[1..]) by {
        forall i, j | 0 <= i < j < |s[1..]| ensures s[1..][i] != s[1..][j] {
          assert s[1..][i] == s[i + 1] && s[1..][j] == s[j + 1];
        }
      }
      DistinctMultiplicity(s[1..], x);
      assert s[0] !in s[1..] by {
        forall k | 0 <= k < |s[1..]| ensures s[1..][k] != s[0] { assert s[1..][k] == s[k + 1]; }
      }
    }
  }
}
