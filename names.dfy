/**
 * Lists of channel names: the set a list holds and whether it repeats a
 * name, which is what the loader's constructor check compares.
 */
module Names {

  /** The names a list holds. */
  function SetOf(s: seq<string>): set<string>
  {
    set c | c in s
  }

  /** No name occurs twice. */
  predicate Distinct(s: seq<string>)
  {
    forall i, j :: 0 <= i < j < |s| ==> s[i] != s[j]
  }

  /** A list has at most as many distinct names as entries, and as many exactly when it repeats none. */
  lemma {:induction false} DistinctCard(s: seq<string>)
    ensures |SetOf(s)| <= |s|
    ensures |SetOf(s)| == |s| <==> Distinct(s)
  {
    if s != [] {
      var init := s[..|s| - 1];
      var last := s[|s| - 1];
      DistinctCard(init);
      assert s == init + [last];
      assert SetOf(s) == SetOf(init) + {last};
      if last in init {
        assert SetOf(s) == SetOf(init);
        var i :| 0 <= i < |init| && init[i] == last;
        assert s[i] == s[|s| - 1];
      } else {
        assert |SetOf(s)| == |SetOf(init)| + 1;
        DistinctSnoc(init, last);
      }
    }
  }

  /** Appending a new name keeps a list repetition-free exactly when it was. */
  lemma DistinctSnoc(init: seq<string>, last: string)
    requires last !in init
    ensures Distinct(init + [last]) <==> Distinct(init)
  {
    var s := init + [last];
    if Distinct(init) {
      forall i, j | 0 <= i < j < |s|
        ensures s[i] != s[j]
      {
        if j == |s| - 1 {
          assert s[i] in init;
        } else {
          assert s[i] == init[i] && s[j] == init[j];
        }
      }
    }
    if Distinct(s) {
      forall i, j | 0 <= i < j < |init|
        ensures init[i] != init[j]
      {
        assert init[i] == s[i] && init[j] == s[j];
      }
    }
  }
}
