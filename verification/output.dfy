/** The two output layouts: the plain edge list (one `tail head` line per
    edge, a lone `tail` line for a vertex without out-edges) and the DOT
    graph, which wraps the same lines, indented and arrowed, in
    `digraph {` ... `}`. Each comes with the parser that reads it back. */
module Output {
  import opened Wrappers
  import Seqs
  import Labels
  import opened Generator

  /** One output line's worth of graph: a vertex with no out-edges, or an edge. */
  datatype Entry = Isolated(vertex: string) | Edge(tail: string, head: string)

  /** The entries of one record: the lone tail when it has no heads, otherwise
      one edge per head, in head order (repeats included). */
  function RecordEntries(r: Record): seq<Entry>
  {
    if |r.heads| == 0 then [Isolated(r.tail)]
    else seq(|r.heads|, k requires 0 <= k < |r.heads| => Edge(r.tail, r.heads[k]))
  }

  /** The entries of a whole run, record after record. */
  function Entries(rs: seq<Record>): seq<Entry>
    decreases |rs|
  {
    if |rs| == 0 then [] else RecordEntries(rs[0]) + Entries(rs[1..])
  }

  function TextLine(e: Entry): string
  {
    match e
    case Isolated(v) => v
    case Edge(t, h) => t + " " + h
  }

  function DotLine(e: Entry): string
  {
    match e
    case Isolated(v) => "  " + v
    case Edge(t, h) => "  " + t + " -> " + h
  }

  /** The plain-text lines of one record: line `k` renders its entry `k`. */
  function RecordText(r: Record): (lines: seq<string>)
    ensures |lines| == |RecordEntries(r)|
    ensures forall k :: 0 <= k < |lines| ==> lines[k] == TextLine(RecordEntries(r)[k])
  {
    if |r.heads| == 0 then [r.tail]
    else seq(|r.heads|, k requires 0 <= k < |r.heads| => r.tail + " " + r.heads[k])
  }

  /** The plain-text output, written record by record as the run produces
      them. */
  function TextLines(rs: seq<Record>): (lines: seq<string>)
    ensures |lines| == |Entries(rs)|
    decreases |rs|
  {
    if |rs| == 0 then [] else RecordText(rs[0]) + TextLines(rs[1..])
  }

  /** Line `k` of the plain-text output renders entry `k` of the run. */
  lemma {:induction false} TextLinesEntries(rs: seq<Record>)
    ensures forall k :: 0 <= k < |TextLines(rs)| ==> TextLines(rs)[k] == TextLine(Entries(rs)[k])
    decreases |rs|
  {
    if |rs| > 0 {
      TextLinesEntries(rs[1..]);
      var first := RecordEntries(rs[0]);
      forall k | 0 <= k < |TextLines(rs)|
        ensures TextLines(rs)[k] == TextLine(Entries(rs)[k])
      {
        if k < |first| {
          assert TextLines(rs)[k] == RecordText(rs[0])[k];
          assert Entries(rs)[k] == first[k];
        } else {
          assert TextLines(rs)[k] == TextLines(rs[1..])[k - |first|];
          assert Entries(rs)[k] == Entries(rs[1..])[k - |first|];
        }
      }
    }
  }

  /** The DOT lines of one record: line `k` renders its entry `k`. */
  function RecordDot(r: Record): (lines: seq<string>)
    ensures |lines| == |RecordEntries(r)|
    ensures forall k :: 0 <= k < |lines| ==> lines[k] == DotLine(RecordEntries(r)[k])
  {
    if |r.heads| == 0 then ["  " + r.tail]
    else seq(|r.heads|, k requires 0 <= k < |r.heads| => "  " + r.tail + " -> " + r.heads[k])
  }

  /** The body of the DOT output, record by record. */
  function DotBody(rs: seq<Record>): (lines: seq<string>)
    ensures |lines| == |Entries(rs)|
    decreases |rs|
  {
    if |rs| == 0 then [] else RecordDot(rs[0]) + DotBody(rs[1..])
  }

  /** Line `k` of the DOT body renders entry `k` of the run. */
  lemma {:induction false} DotBodyEntries(rs: seq<Record>)
    ensures forall k :: 0 <= k < |DotBody(rs)| ==> DotBody(rs)[k] == DotLine(Entries(rs)[k])
    decreases |rs|
  {
    if |rs| > 0 {
      DotBodyEntries(rs[1..]);
      var first := RecordEntries(rs[0]);
      forall k | 0 <= k < |DotBody(rs)|
        ensures DotBody(rs)[k] == DotLine(Entries(rs)[k])
      {
        if k < |first| {
          assert DotBody(rs)[k] == RecordDot(rs[0])[k];
          assert Entries(rs)[k] == first[k];
        } else {
          assert DotBody(rs)[k] == DotBody(rs[1..])[k - |first|];
          assert Entries(rs)[k] == Entries(rs[1..])[k - |first|];
        }
      }
    }
  }

  /** The DOT output: an opening `digraph {` line, then line `k + 1`
      rendering entry `k` of the run, then a closing `}` line. */
  function DotLines(rs: seq<Record>): (lines: seq<string>)
    ensures |lines| == |Entries(rs)| + 2
    ensures lines[0] == "digraph {" && lines[|lines| - 1] == "}"
    ensures forall k :: 0 <= k < |Entries(rs)| ==> lines[k + 1] == DotLine(Entries(rs)[k])
  {
    DotBodyEntries(rs);
    ["digraph {"] + DotBody(rs) + ["}"]
  }

  /** Position of the first space in `s`, if any. */
  function FindSpace(s: string): (r: Option<nat>)
    ensures r.Some? ==> r.value < |s| && s[r.value] == ' ' && forall i :: 0 <= i < r.value ==> s[i] != ' '
    ensures r.None? ==> forall i :: 0 <= i < |s| ==> s[i] != ' '
    decreases |s|
  {
    if |s| == 0 then None
    else if s[0] == ' ' then Some(0)
    else match FindSpace(s[1..])
      case None => None
      case Some(i) => Some(i + 1)
  }

  /** Reads a plain-text line: one field is a lone vertex, otherwise the text
      before the first space is the tail and the rest the head. */
  function ParseTextLine(line: string): Entry
  {
    match FindSpace(line)
    case None => Isolated(line)
    case Some(k) => Edge(line[..k], line[k + 1..])
  }

  /** Reads the plain-text output, one entry per line. */
  function ParseText(lines: seq<string>): seq<Entry>
  {
    seq(|lines|, k requires 0 <= k < |lines| => ParseTextLine(lines[k]))
  }

  /** Reads a DOT body line: two leading spaces, then a lone vertex or
      `tail -> head`; anything else is malformed. */
  function ParseDotLine(line: string): Option<Entry>
  {
    if |line| < 2 || line[..2] != "  " then None
    else
      var s := line[2..];
      match FindSpace(s)
      case None => Some(Isolated(s))
      case Some(k) =>
        if k + 4 <= |s| && s[k..k + 4] == " -> " then Some(Edge(s[..k], s[k + 4..])) else None
  }

  function ParseDotBody(lines: seq<string>): Option<seq<Entry>>
    decreases |lines|
  {
    if |lines| == 0 then Some([])
    else match (ParseDotLine(lines[0]), ParseDotBody(lines[1..]))
      case (Some(e), Some(es)) => Some([e] + es)
      case _ => None
  }

  /** Reads a DOT document as written: header, body lines, closing brace. */
  function ParseDot(lines: seq<string>): Option<seq<Entry>>
  {
    if |lines| < 2 || lines[0] != "digraph {" || lines[|lines| - 1] != "}" then None
    else ParseDotBody(lines[1..|lines| - 1])
  }

  predicate SpaceFree(s: string)
  {
    forall i :: 0 <= i < |s| ==> s[i] != ' '
  }

  /** Every entry of the run names a tail without spaces. */
  predicate TailsSpaceFree(rs: seq<Record>)
  {
    forall j :: 0 <= j < |rs| ==> SpaceFree(rs[j].tail)
  }

  function EntryTail(e: Entry): string
  {
    match e
    case Isolated(v) => v
    case Edge(t, _) => t
  }

  lemma {:induction false} EntriesTails(rs: seq<Record>)
    requires TailsSpaceFree(rs)
    ensures forall k :: 0 <= k < |Entries(rs)| ==> SpaceFree(EntryTail(Entries(rs)[k]))
    decreases |rs|
  {
    if |rs| > 0 {
      EntriesTails(rs[1..]);
      var es := Entries(rs);
      var first := RecordEntries(rs[0]);
      forall k | 0 <= k < |es|
        ensures SpaceFree(EntryTail(es[k]))
      {
        if k < |first| {
          assert es[k] == first[k];
        } else {
          assert es[k] == Entries(rs[1..])[k - |first|];
        }
      }
    }
  }

  lemma ParseTextLineRoundTrip(e: Entry)
    requires SpaceFree(EntryTail(e))
    ensures ParseTextLine(TextLine(e)) == e
  {
    match e
    case Isolated(v) =>
    case Edge(t, h) =>
      var line := t + " " + h;
      assert line[|t|] == ' ';
      var k := FindSpace(line);
      assert k == Some(|t|) by {
        assert forall i :: 0 <= i < |t| ==> line[i] == t[i];
      }
      assert line[..|t|] == t;
      assert line[|t| + 1..] == h;
  }

  lemma ParseDotLineRoundTrip(e: Entry)
    requires SpaceFree(EntryTail(e))
    ensures ParseDotLine(DotLine(e)) == Some(e)
  {
    var line := DotLine(e);
    assert line[..2] == "  ";
    match e
    case Isolated(v) =>
      assert line[2..] == v;
    case Edge(t, h) =>
      var s := line[2..];
      assert s == t + " -> " + h;
      assert s[|t|] == ' ';
      assert FindSpace(s) == Some(|t|) by {
        assert forall i :: 0 <= i < |t| ==> s[i] == t[i];
      }
      assert s[|t|..|t| + 4] == " -> ";
      assert s[..|t|] == t;
      assert s[|t| + 4..] == h;
  }

  /** Reading the plain-text output back recovers every entry of the run in
      order: each edge (repeated edges as repeated entries) and each vertex
      without out-edges, provided no tail label contains a space. */
  lemma TextRoundTrip(rs: seq<Record>)
    requires TailsSpaceFree(rs)
    ensures ParseText(TextLines(rs)) == Entries(rs)
  {
    EntriesTails(rs);
    TextLinesEntries(rs);
    var lines := TextLines(rs);
    var es := Entries(rs);
    forall k | 0 <= k < |es|
      ensures ParseText(lines)[k] == es[k]
    {
      ParseTextLineRoundTrip(es[k]);
    }
  }

  lemma {:induction false} DotBodyRoundTrip(lines: seq<string>, es: seq<Entry>)
    requires |lines| == |es|
    requires forall k :: 0 <= k < |es| ==> SpaceFree(EntryTail(es[k])) && lines[k] == DotLine(es[k])
    ensures ParseDotBody(lines) == Some(es)
    decreases |lines|
  {
    if |lines| > 0 {
      ParseDotLineRoundTrip(es[0]);
      DotBodyRoundTrip(lines[1..], es[1..]);
      assert es == [es[0]] + es[1..];
    }
  }

  /** Reading the DOT output back recovers every entry of the run in order,
      provided no tail label contains a space. */
  lemma DotRoundTrip(rs: seq<Record>)
    requires TailsSpaceFree(rs)
    ensures ParseDot(DotLines(rs)) == Some(Entries(rs))
  {
    EntriesTails(rs);
    DotBodyEntries(rs);
    DotBodyRoundTrip(DotBody(rs), Entries(rs));
  }

  /** Every entry of a run names the tail of one of its records. */
  lemma {:induction false} EntryFromRecord(rs: seq<Record>, k: nat)
    requires k < |Entries(rs)|
    ensures exists j :: 0 <= j < |rs| && EntryTail(Entries(rs)[k]) == rs[j].tail
    decreases |rs|
  {
    var first := RecordEntries(rs[0]);
    if k < |first| {
      assert Entries(rs)[k] == first[k];
      assert EntryTail(Entries(rs)[k]) == rs[0].tail;
    } else {
      assert Entries(rs)[k] == Entries(rs[1..])[k - |first|];
      EntryFromRecord(rs[1..], k - |first|);
      var j :| 0 <= j < |rs[1..]| && EntryTail(Entries(rs[1..])[k - |first|]) == rs[1..][j].tail;
      assert rs[1..][j] == rs[j + 1];
    }
  }

  /** With pairwise distinct tails, no single-field entry repeats, and when
      no record repeats a head no entry repeats at all. */
  lemma {:induction false} EntriesUnique(rs: seq<Record>)
    requires forall a, b :: 0 <= a < b < |rs| ==> rs[a].tail != rs[b].tail
    ensures forall a, b :: 0 <= a < b < |Entries(rs)| && Entries(rs)[a].Isolated? ==> Entries(rs)[a] != Entries(rs)[b]
    ensures (forall j :: 0 <= j < |rs| ==> Seqs.Distinct(rs[j].heads)) ==> Seqs.Distinct(Entries(rs))
    decreases |rs|
  {
    if |rs| > 0 {
      var es := Entries(rs);
      var first := RecordEntries(rs[0]);
      var later := rs[1..];
      var rest := Entries(later);
      assert es == first + rest;
      assert forall a, b :: 0 <= a < b < |later| ==> later[a].tail != later[b].tail by {
        forall a, b | 0 <= a < b < |later|
          ensures later[a].tail != later[b].tail
        {
          assert later[a] == rs[a + 1] && later[b] == rs[b + 1];
        }
      }
      EntriesUnique(later);
      var headsDistinct := forall j :: 0 <= j < |rs| ==> Seqs.Distinct(rs[j].heads);
      if headsDistinct {
        forall j | 0 <= j < |later|
          ensures Seqs.Distinct(later[j].heads)
        {
          assert later[j] == rs[j + 1];
        }
      }
      forall a, b | 0 <= a < b < |es|
        ensures es[a].Isolated? ==> es[a] != es[b]
        ensures headsDistinct ==> es[a] != es[b]
      {
        if b < |first| {
          if |rs[0].heads| > 0 && headsDistinct {
            assert Seqs.Distinct(rs[0].heads);
            assert rs[0].heads[a] != rs[0].heads[b];
          }
        } else if a < |first| {
          assert es[a] == first[a] && EntryTail(es[a]) == rs[0].tail;
          assert es[b] == rest[b - |first|];
          EntryFromRecord(later, b - |first|);
          var j :| 0 <= j < |later| && EntryTail(rest[b - |first|]) == later[j].tail;
          assert later[j] == rs[j + 1];
        } else {
          assert es[a] == rest[a - |first|] && es[b] == rest[b - |first|];
        }
      }
    }
  }

  /** The promise about the plain-text output: with a clean pool the
      single-field entries are unique, and without multi-edges every entry is,
      so repeated two-field entries only come with multi-edges. */
  lemma EntriesOfRunUnique(o: Options, rolls: seq<seq<Trial>>, accept: (nat, string, seq<string>) -> bool)
    requires ValidOptions(o) && ValidOracle(o, rolls) && Labels.CleanPool(o.labels)
    ensures var es := Entries(Digraph(o, rolls, accept));
      forall a, b :: 0 <= a < b < |es| && es[a].Isolated? ==> es[a] != es[b]
    ensures !o.allowMultiEdges ==> Seqs.Distinct(Entries(Digraph(o, rolls, accept)))
  {
    DigraphLabels(o, rolls, accept);
    EntriesUnique(Digraph(o, rolls, accept));
  }

  /** With a clean pool no tail of a run contains a space. */
  lemma RunTailsSpaceFree(o: Options, rolls: seq<seq<Trial>>, accept: (nat, string, seq<string>) -> bool)
    requires ValidOptions(o) && ValidOracle(o, rolls) && Labels.CleanPool(o.labels)
    ensures TailsSpaceFree(Digraph(o, rolls, accept))
  {
    var out := Digraph(o, rolls, accept);
    DigraphShape(o, rolls, accept);
    forall j | 0 <= j < |out|
      ensures SpaceFree(out[j].tail)
    {
      Labels.LabelAlphanumeric(o.labels, j);
    }
  }

  /** End to end: with a clean label pool, both outputs of a run read back
      as that run's entries. */
  lemma OutputRoundTrip(o: Options, rolls: seq<seq<Trial>>, accept: (nat, string, seq<string>) -> bool)
    requires ValidOptions(o) && ValidOracle(o, rolls) && Labels.CleanPool(o.labels)
    ensures ParseText(TextLines(Digraph(o, rolls, accept))) == Entries(Digraph(o, rolls, accept))
    ensures ParseDot(DotLines(Digraph(o, rolls, accept))) == Some(Entries(Digraph(o, rolls, accept)))
  {
    RunTailsSpaceFree(o, rolls, accept);
    TextRoundTrip(Digraph(o, rolls, accept));
    DotRoundTrip(Digraph(o, rolls, accept));
  }
}
