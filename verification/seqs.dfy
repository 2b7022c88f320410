/** Facts about sequences used by the fan-in merge. */
module Seqs {

  /** No element of `s` occurs twice. */
  predicate NoDuplicates<T(==)>(s: seq<T>)
  {
    forall i, j :: 0 <= i < j < |s| ==> s[i] != s[j]
  }

  /** The set of distinct elements of `s` is never larger than `s`, and it is
      exactly as large precisely when `s` has no duplicates. */
  lemma {:induction false} DistinctCount<T>(s: seq<T>)
    ensures |set x | x in s| <= |s|
    ensures |set x | x in s| == |s| <==> NoDuplicates(s)
  {
    if s == [] {
    } else {
      var rest := s[1..];
      DistinctCount(rest);
      assert s == [s[0]] + rest;
      var setRest := set x | x in rest;
      var setAll := set x | x in s;
      assert setAll == {s[0]} + setRest;
      if s[0] in rest {
        assert setAll == setRest;
        var k :| 0 <= k < |rest| && rest[k] == s[0];
        assert s[0] == s[k + 1];
        assert !NoDuplicates(s);
      } else {
        assert |setAll| == |setRest| + 1;
        if NoDuplicates(s) {
          assert NoDuplicates(rest) by {
            forall i, j | 0 <= i < j < |rest| ensures rest[i] != rest[j] {
              assert rest[i] == s[i + 1] && rest[j] == s[j + 1];
            }
          }
        }
        if NoDuplicates(rest) {
          forall i, j | 0 <= i < j < |s| ensures s[i] != s[j] {
            if i == 0 {
              assert s[j] == rest[j - 1];
            } else {
              assert s[i] == rest[i - 1] && s[j] == rest[j - 1];
            }
          }
        }
      }
    }
  }
}
