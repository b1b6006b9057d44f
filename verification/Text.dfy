/** Strings, sequences and options as the other modules use them. */
module Text {

  datatype Option<+T> = None | Some(value: T)

  predicate HasPrefix(s: string, prefix: string) {
    prefix <= s
  }

  /** Go's strings.Contains: `part` occurs in `s` at some offset. */
  predicate Contains(s: string, part: string) {
    exists i | 0 <= i <= |s| :: OccursAt(s, part, i)
  }

  predicate OccursAt(s: string, part: string, i: nat)
    requires i <= |s|
  {
    part <= s[i..]
  }

  /** No two positions of `s` hold the same value. */
  ghost predicate Distinct<T>(s: seq<T>) {
    forall i, j | 0 <= i < j < |s| :: s[i] != s[j]
  }

  lemma ConcatAssoc<T>(a: seq<T>, b: seq<T>, c: seq<T>)
    ensures a + (b + c) == a + b + c
  {
  }

  lemma SuffixStep<T>(s: seq<T>, i: nat)
    requires i < |s|
    ensures s[i..] != [] && s[i..][0] == s[i] && s[i..][1..] == s[i + 1..]
  {
  }

  lemma FewerKeys<K, V>(some: map<K, V>, all: map<K, V>)
    requires some.Keys <= all.Keys
    ensures |some| <= |all|
  {
    assert some.Keys + (all.Keys - some.Keys) == all.Keys;
  }

  /** A duplicate-free sequence over a finite set is no longer than the set. */
  lemma {:induction false} DistinctWithin<T>(s: seq<T>, bound: set<T>)
    requires Distinct(s) && forall x | x in s :: x in bound
    ensures |s| <= |bound|
  {
    if s != [] {
      var last := s[|s| - 1];
      DistinctWithin(s[..|s| - 1], bound - {last});
    }
  }
}
