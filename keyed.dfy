/**
 * The idiom the code base uses to index a list by a key: a `reduce` that
 * writes the value of each element under its key into an object that starts empty.
 * Entries are written in list order, so a later entry with the same key
 * overwrites an earlier one.
 */
module Keyed {
  function IndexBy<T, V>(s: seq<T>, key: T -> string, val: T -> V): map<string, V>
  {
    if s == [] then map[] else IndexBy(s[..|s| - 1], key, val)[key(s[|s| - 1]) := val(s[|s| - 1])]
  }

  /** The index has exactly the keys of the list's entries. */
  lemma {:induction false} IndexByKeys<T, V>(s: seq<T>, key: T -> string, val: T -> V, k: string)
    ensures k in IndexBy(s, key, val) <==> exists i :: 0 <= i < |s| && key(s[i]) == k
  {
    if s != [] {
      var init := s[..|s| - 1];
      IndexByKeys(init, key, val, k);
      if exists i :: 0 <= i < |init| && key(init[i]) == k {
        var i :| 0 <= i < |init| && key(init[i]) == k;
        assert s[i] == init[i];
      }
      if exists i :: 0 <= i < |s| && key(s[i]) == k {
        var i :| 0 <= i < |s| && key(s[i]) == k;
        if i < |init| {
          assert init[i] == s[i];
        }
      }
    }
  }

  /** The value under a key is the one of the last entry carrying that key. */
  lemma {:induction false} IndexByLastWins<T, V>(s: seq<T>, key: T -> string, val: T -> V, i: nat)
    requires i < |s|
    requires forall j :: i < j < |s| ==> key(s[j]) != key(s[i])
    ensures key(s[i]) in IndexBy(s, key, val)
    ensures IndexBy(s, key, val)[key(s[i])] == val(s[i])
  {
    if i < |s| - 1 {
      var init := s[..|s| - 1];
      assert init[i] == s[i];
      forall j | i < j < |init|
        ensures key(init[j]) != key(init[i])
      {
        assert init[j] == s[j];
      }
      IndexByLastWins(init, key, val, i);
    }
  }
}
