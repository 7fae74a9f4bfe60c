/** Vertex labels: the display name of a vertex index, drawn from an optional
    pool of words, and the inverse reading that shows no two indices share a
    name when the pool has the shape a cleaned words file has. */
module Labels {
  import opened Wrappers
  import opened Seqs
  import Decimal

  predicate IsLetter(c: char)
  {
    'a' <= c <= 'z' || 'A' <= c <= 'Z'
  }

  /** A word that survives sanitising: non-empty and letters only. */
  predicate IsWord(w: string)
  {
    |w| > 0 && forall i :: 0 <= i < |w| ==> IsLetter(w[i])
  }

  /** The shape of a label pool read from a words file: every line stripped
      to its ASCII letters, empty results dropped, duplicates removed.
      The empty pool (no words file) has this shape too. */
  predicate CleanPool(pool: seq<string>)
  {
    Distinct(pool) && forall i :: 0 <= i < |pool| ==> IsWord(pool[i])
  }

  /** The label of vertex `n`: its decimal index without a pool; otherwise the
      pool entry `n mod |pool|`, suffixed with the decimal index once the pool
      has wrapped around. */
  function Label(pool: seq<string>, n: nat): (s: string)
    ensures |pool| == 0 ==> Decimal.Parse(s) == Some(n) && Decimal.Canonical(s)
    ensures |pool| > 0 ==> pool[n % |pool|] <= s
    ensures |pool| > 0 ==> (|s| == |pool[n % |pool|]| <==> n < |pool|)
    ensures |pool| > 0 && n >= |pool| ==>
              Decimal.Parse(s[|pool[n % |pool|]|..]) == Some(n) && Decimal.Canonical(s[|pool[n % |pool|]|..])
  {
    if |pool| == 0 then
      Decimal.ParseFormat(n);
      Decimal.Format(n)
    else
      var i := n % |pool|;
      if n < |pool| then pool[i]
      else
        Decimal.ParseFormat(n);
        assert (pool[i] + Decimal.Format(n))[|pool[i]|..] == Decimal.Format(n);
        pool[i] + Decimal.Format(n)
  }

  /** Length of the longest all-letter prefix of `s`. */
  function LetterRun(s: string): (k: nat)
    ensures k <= |s|
    ensures forall i :: 0 <= i < k ==> IsLetter(s[i])
    ensures k < |s| ==> !IsLetter(s[k])
    decreases |s|
  {
    if |s| == 0 || !IsLetter(s[0]) then 0 else 1 + LetterRun(s[1..])
  }

  /** Position of `w` in the pool, if it is there. */
  function IndexOf(pool: seq<string>, w: string): (r: Option<nat>)
    ensures r.Some? ==> r.value < |pool| && pool[r.value] == w
    ensures r.None? ==> forall i :: 0 <= i < |pool| ==> pool[i] != w
    decreases |pool|
  {
    if |pool| == 0 then None
    else if pool[0] == w then Some(0)
    else match IndexOf(pool[1..], w)
      case None => None
      case Some(i) => Some(i + 1)
  }

  /** Recovers the vertex index from a label: the letters name a pool slot,
      the trailing digits (if any) give the index, which must have wrapped
      past the pool and map back to that slot. */
  function Unlabel(pool: seq<string>, s: string): (r: Option<nat>)
  {
    if |pool| == 0 then Decimal.Parse(s)
    else
      var k := LetterRun(s);
      match IndexOf(pool, s[..k])
      case None => None
      case Some(slot) =>
        if k == |s| then Some(slot)
        else match Decimal.Parse(s[k..])
          case None => None
          case Some(n) => if n >= |pool| && n % |pool| == slot then Some(n) else None
  }

  /** In a pool of distinct entries, an entry is found at its own position. */
  lemma IndexOfDistinct(pool: seq<string>, i: nat)
    requires Distinct(pool) && i < |pool|
    ensures IndexOf(pool, pool[i]) == Some(i)
  {
  }

  /** The letter run of a word followed by text that starts with a non-letter
      is the word itself. */
  lemma LetterRunOfWord(w: string, rest: string)
    requires IsWord(w)
    requires |rest| > 0 ==> !IsLetter(rest[0])
    ensures LetterRun(w + rest) == |w|
    ensures (w + rest)[..|w|] == w && (w + rest)[|w|..] == rest
  {
    var s := w + rest;
    assert |rest| > 0 ==> s[|w|] == rest[0];
  }

  /** Every label of a clean pool reads back as the index it was made from. */
  lemma UnlabelLabel(pool: seq<string>, n: nat)
    requires CleanPool(pool)
    ensures Unlabel(pool, Label(pool, n)) == Some(n)
  {
    if |pool| > 0 {
      var slot := n % |pool|;
      var w := pool[slot];
      assert IsWord(w);
      IndexOfDistinct(pool, slot);
      if n < |pool| {
        LetterRunOfWord(w, []);
        assert Label(pool, n) == w + [];
      } else {
        var digits := Decimal.Format(n);
        Decimal.ParseFormat(n);
        LetterRunOfWord(w, digits);
        assert Label(pool, n) == w + digits;
      }
    }
  }

  /** Distinct vertices get distinct labels from a clean pool (so in the plain
      text output the single-field entries are unique). */
  lemma LabelInjective(pool: seq<string>, a: nat, b: nat)
    requires CleanPool(pool)
    requires Label(pool, a) == Label(pool, b)
    ensures a == b
  {
    UnlabelLabel(pool, a);
    UnlabelLabel(pool, b);
  }

  /** Labels from a clean pool consist of letters and digits only; in
      particular they contain no space. */
  lemma LabelAlphanumeric(pool: seq<string>, n: nat)
    requires CleanPool(pool)
    ensures forall i :: 0 <= i < |Label(pool, n)| ==> IsLetter(Label(pool, n)[i]) || Decimal.IsDigit(Label(pool, n)[i])
  {
    var s := Label(pool, n);
    if |pool| > 0 {
      var w := pool[n % |pool|];
      assert IsWord(w);
      forall i | 0 <= i < |s|
        ensures IsLetter(s[i]) || Decimal.IsDigit(s[i])
      {
        if i < |w| {
          assert s[i] == w[i];
        } else {
          assert s[i] == s[|w|..][i - |w|];
        }
      }
    }
  }

  /** The labels mkdigraph_test.go's label table expects. */
  lemma LabelExamples()
    ensures Label(["A", "B"], 0) == "A"
    ensures Label(["A", "B"], 1) == "B"
    ensures Label(["A", "B"], 2) == "A2"
    ensures Label(["A", "B"], 5) == "B5"
    ensures Label([], 2) == "2"
    ensures Label([], 5) == "5"
  {
  }
}
