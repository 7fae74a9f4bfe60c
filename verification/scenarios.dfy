/** The generator runs exercised by mkdigraph_test.go's table, and one
    five-vertex run, stated for every random source that can occur:
    probability one makes every trial succeed, and a one-element head range
    forces every draw. */
module Scenarios {
  import opened Generator

  /** A consumer that takes every record (collecting the graph into a map). */
  function AcceptAll(i: nat, t: string, h: seq<string>): bool
  {
    true
  }

  /** With a consumer that never stops, the run is every vertex record. */
  lemma RunIsRecords(o: Options, rolls: seq<seq<Trial>>)
    requires ValidOptions(o) && ValidOracle(o, rolls)
    ensures |Digraph(o, rolls, AcceptAll)| == o.numVertices
    ensures forall j :: 0 <= j < o.numVertices ==> Digraph(o, rolls, AcceptAll)[j] == VertexRecord(o, rolls, j)
  {
    DigraphShape(o, rolls, AcceptAll);
    DigraphComplete(o, rolls, AcceptAll);
  }

  lemma ZeroLabel()
    ensures Labels.Label([], 0) == "0"
    ensures Labels.Label([], 1) == "1"
  {
  }

  /** One vertex with loops and multi-edges: both trials hit the vertex itself. */
  lemma OneVertexLoopsMultiEdges(rolls: seq<seq<Trial>>)
    requires ValidOracle(Options(1, 2, 1.0, true, true, []), rolls)
    ensures Digraph(Options(1, 2, 1.0, true, true, []), rolls, AcceptAll) == [Record("0", ["0", "0"])]
  {
    var o := Options(1, 2, 1.0, true, true, []);
    RunIsRecords(o, rolls);
    var trials := rolls[0];
    assert ValidTrial(o, 0, trials[0]) && ValidTrial(o, 0, trials[1]);
    assert trials[..0] == [];
    HeadIndicesSnoc(o, 0, trials, 0);
    HeadIndicesSnoc(o, 0, trials, 1);
    assert trials[..2] == trials;
    var hs := VertexHeads(o, rolls, 0);
    assert hs == [0, 0];
    ZeroLabel();
    var ls := LabelAll(o.labels, hs);
    LabelAllLabels(o.labels, hs);
    assert ls == ["0", "0"];
    var out := Digraph(o, rolls, AcceptAll);
    assert out[0] == Record("0", ["0", "0"]);
  }

  /** One vertex without loops: no permissible head, an empty record. */
  lemma OneVertexNoLoops(rolls: seq<seq<Trial>>, multi: bool)
    requires ValidOracle(Options(1, 2, 1.0, false, multi, []), rolls)
    ensures Digraph(Options(1, 2, 1.0, false, multi, []), rolls, AcceptAll) == [Record("0", [])]
  {
    var o := Options(1, 2, 1.0, false, multi, []);
    RunIsRecords(o, rolls);
    ZeroLabel();
  }

  /** Two vertices without loops: every draw of vertex 0 is vertex 1. */
  lemma TwoVerticesHeads(rolls: seq<seq<Trial>>, multi: bool)
    requires ValidOracle(Options(2, 2, 1.0, false, multi, []), rolls)
    ensures VertexHeads(Options(2, 2, 1.0, false, multi, []), rolls, 0) == if multi then [1, 1] else [1]
  {
    var o := Options(2, 2, 1.0, false, multi, []);
    var trials := rolls[0];
    assert ValidTrial(o, 0, trials[0]) && ValidTrial(o, 0, trials[1]);
    assert trials[..0] == [];
    HeadIndicesSnoc(o, 1, trials, 0);
    HeadIndicesSnoc(o, 1, trials, 1);
    assert trials[..2] == trials;
  }

  /** Two vertices without loops: vertex 0 can only point at vertex 1, twice
      with multi-edges and once without; vertex 1 has no heads. */
  lemma TwoVerticesNoLoops(rolls: seq<seq<Trial>>, multi: bool)
    requires ValidOracle(Options(2, 2, 1.0, false, multi, []), rolls)
    ensures Digraph(Options(2, 2, 1.0, false, multi, []), rolls, AcceptAll) ==
              if multi then [Record("0", ["1", "1"]), Record("1", [])]
              else [Record("0", ["1"]), Record("1", [])]
  {
    var o := Options(2, 2, 1.0, false, multi, []);
    RunIsRecords(o, rolls);
    TwoVerticesHeads(rolls, multi);
    var hs := VertexHeads(o, rolls, 0);
    ZeroLabel();
    var ls := LabelAll(o.labels, hs);
    LabelAllLabels(o.labels, hs);
    assert ls == if multi then ["1", "1"] else ["1"];
    var out := Digraph(o, rolls, AcceptAll);
    assert out[0] == Record("0", ls);
    assert out[1] == Record("1", []);
  }

  /** No trials and probability zero: five records, none with heads. */
  lemma Edgeless(rolls: seq<seq<Trial>>)
    requires ValidOracle(Options(5, 0, 0.0, false, false, []), rolls)
    ensures |Digraph(Options(5, 0, 0.0, false, false, []), rolls, AcceptAll)| == 5
    ensures forall j :: 0 <= j < 5 ==> Digraph(Options(5, 0, 0.0, false, false, []), rolls, AcceptAll)[j].heads == []
  {
    var o := Options(5, 0, 0.0, false, false, []);
    RunIsRecords(o, rolls);
    forall j | 0 <= j < 5
      ensures VertexHeads(o, rolls, j) == []
    {
      HeadsCount(o, rolls, j);
    }
  }

  /** Zero vertices: nothing is produced. */
  lemma OrderZero(rolls: seq<seq<Trial>>)
    requires ValidOracle(Options(0, 1, 1.0, false, false, []), rolls)
    ensures Digraph(Options(0, 1, 1.0, false, false, []), rolls, AcceptAll) == []
  {
    RunIsRecords(Options(0, 1, 1.0, false, false, []), rolls);
  }

  /** Five vertices, two trials, probability one, no loops, no multi-edges:
      vertex 0 gets one or two distinct heads among 1..4, and the last vertex
      gets none. */
  lemma FiveVertices(rolls: seq<seq<Trial>>)
    requires ValidOracle(Options(5, 2, 1.0, false, false, []), rolls)
    ensures var hs := VertexHeads(Options(5, 2, 1.0, false, false, []), rolls, 0);
      && 1 <= |hs| <= 2
      && Seqs.Distinct(hs)
      && forall j :: 0 <= j < |hs| ==> 1 <= hs[j] <= 4
    ensures VertexHeads(Options(5, 2, 1.0, false, false, []), rolls, 4) == []
  {
    var o := Options(5, 2, 1.0, false, false, []);
    HeadsInRange(o, rolls, 0);
    HeadsCount(o, rolls, 0);
    HeadsDistinct(o, rolls, 0);
    HeadsInRange(o, rolls, 4);
    var trials := rolls[0];
    assert Succeeds(o, trials[0]);
    assert trials[..0] == [];
    HeadIndicesSnoc(o, 1, trials, 0);
    HeadIndicesSnoc(o, 1, trials, 1);
    assert trials[..2] == trials;
  }
}
