/** Small value types and sequence helpers shared by the other modules. */
module Wrappers {

  /** An optional value: the result of a partial operation such as parsing. */
  datatype Option<+T> = None | Some(value: T)
}

module Seqs {

  /** No element of `s` occurs twice. */
  predicate Distinct<T(==)>(s: seq<T>)
  {
    forall i, j :: 0 <= i < j < |s| ==> s[i] != s[j]
  }

  /** The first occurrence of every element of `s`, in the order of `s`:
      an element is kept exactly when it does not occur earlier. */
  function Dedup<T(==)>(s: seq<T>): (d: seq<T>)
    ensures forall i :: 0 <= i < |d| ==> d[i] in s
    ensures Distinct(d)
    ensures |d| <= |s|
    decreases |s|
  {
    if |s| == 0 then []
    else
      var init := s[..|s| - 1];
      var x := s[|s| - 1];
      Dedup(init) + (if x in init then [] else [x])
  }

  /** Nothing is lost: every element of `s` occurs in its deduplication. */
  lemma {:induction false} DedupKeeps<T>(s: seq<T>, i: nat)
    requires i < |s|
    ensures s[i] in Dedup(s)
    decreases |s|
  {
    var init := s[..|s| - 1];
    if i < |s| - 1 {
      assert s[i] == init[i];
      DedupKeeps(init, i);
    } else if s[i] in init {
      var j :| 0 <= j < |init| && init[j] == s[i];
      DedupKeeps(init, j);
    }
  }

  /** Deduplicating one more element appends it exactly when it is new, and
      it is new to the sequence exactly when it is new to the deduplication. */
  lemma DedupSnoc<T>(s: seq<T>, x: T)
    ensures Dedup(s + [x]) == Dedup(s) + (if x in s then [] else [x])
    ensures x in s <==> x in Dedup(s)
  {
    assert (s + [x])[..|s|] == s;
    if x in s {
      var i :| 0 <= i < |s| && s[i] == x;
      DedupKeeps(s, i);
    }
  }
}
