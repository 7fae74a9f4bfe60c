/** The streaming random-digraph generator. The random source is an oracle:
    for every vertex a row of `maxEdges` trials, each holding the uniform
    sample in [0,1) that decides the trial and the head offset that would be
    drawn from the permissible range if it succeeds. The consumer is a
    function that accepts or refuses each record. */
module Generator {
  import Wrappers
  import opened Seqs
  import opened Labels

  /** Generation parameters; the counts are signed, as in mkdigraph's `digraphOpts`. */
  datatype Options = Options(
    numVertices: int,
    maxEdges: int,
    edgeProb: real,
    allowLoops: bool,
    allowMultiEdges: bool,
    labels: seq<string>)

  /** Parameters the generator accepts; anything else panics or ends the
      program before any record is produced (see `CheckOptions`). */
  predicate ValidOptions(o: Options)
  {
    o.numVertices >= 0 && o.maxEdges >= 0 && 0.0 <= o.edgeProb <= 1.0
  }

  /** Why the generator refuses its parameters: a panic for a negative count,
      a fatal log message for a probability outside [0,1]. */
  datatype Failure = Panic(msg: string) | Fatal(msg: string)

  /** The parameter checks, in the order mkdigraph makes them; the first
      that fails decides the failure. */
  function CheckOptions(o: Options): (r: Wrappers.Option<Failure>)
    ensures r.None? <==> ValidOptions(o)
    ensures r == Wrappers.Some(Panic("invalid number of vertices")) <==> o.numVertices < 0
    ensures r == Wrappers.Some(Panic("invalid maximum number of outgoing edges")) <==>
              o.numVertices >= 0 && o.maxEdges < 0
    ensures r == Wrappers.Some(Fatal("invalid edge probability")) <==>
              o.numVertices >= 0 && o.maxEdges >= 0 && !(0.0 <= o.edgeProb <= 1.0)
  {
    if o.numVertices < 0 then Wrappers.Some(Panic("invalid number of vertices"))
    else if o.maxEdges < 0 then Wrappers.Some(Panic("invalid maximum number of outgoing edges"))
    else if o.edgeProb < 0.0 || o.edgeProb > 1.0 then Wrappers.Some(Fatal("invalid edge probability"))
    else Wrappers.None
  }

  /** One Bernoulli trial: `sample` is the uniform real it compares with the
      edge probability, `draw` the offset chosen in the permissible head range. */
  datatype Trial = Trial(sample: real, draw: nat)

  /** One generated vertex: its label and the labels of its out-neighbours,
      in the order the trials produced them. */
  datatype Record = Record(tail: string, heads: seq<string>)

  /** Smallest permissible head index of vertex `tail`. */
  function Start(o: Options, tail: nat): nat
  {
    if o.allowLoops then 0 else tail + 1
  }

  predicate ValidTrial(o: Options, tail: nat, t: Trial)
  {
    && 0.0 <= t.sample < 1.0
    && (Start(o, tail) < o.numVertices ==> t.draw < o.numVertices - Start(o, tail))
  }

  /** What a random source can supply: one row of exactly `maxEdges` trials
      per vertex, every sample in [0,1), every draw inside the vertex's
      permissible range whenever that range is non-empty. */
  predicate ValidOracle(o: Options, rolls: seq<seq<Trial>>)
  {
    && |rolls| == o.numVertices
    && forall i :: 0 <= i < |rolls| ==>
         |rolls[i]| == o.maxEdges && forall k :: 0 <= k < |rolls[i]| ==> ValidTrial(o, i, rolls[i][k])
  }

  predicate Succeeds(o: Options, t: Trial)
  {
    t.sample < o.edgeProb
  }

  /** The head index of every successful trial, in trial order. */
  function SuccessHeads(o: Options, start: nat, trials: seq<Trial>): (hs: seq<nat>)
    ensures |hs| <= |trials|
    decreases |trials|
  {
    if |trials| == 0 then []
    else
      var init := trials[..|trials| - 1];
      var t := trials[|trials| - 1];
      SuccessHeads(o, start, init) + (if Succeeds(o, t) then [start + t.draw] else [])
  }

  /** A head is `start` plus the draw of a successful trial, so draws below
      `bound` give heads in `[start, start + bound)`. */
  lemma {:induction false} SuccessHeadsBounded(o: Options, start: nat, trials: seq<Trial>, bound: nat)
    requires forall k :: 0 <= k < |trials| && Succeeds(o, trials[k]) ==> trials[k].draw < bound
    ensures forall j :: 0 <= j < |SuccessHeads(o, start, trials)| ==>
              start <= SuccessHeads(o, start, trials)[j] < start + bound
    decreases |trials|
  {
    if |trials| > 0 {
      SuccessHeadsBounded(o, start, trials[..|trials| - 1], bound);
    }
  }

  /** When every trial succeeds, the heads are exactly the draws, in order. */
  lemma {:induction false} SuccessHeadsAll(o: Options, start: nat, trials: seq<Trial>)
    requires forall k :: 0 <= k < |trials| ==> Succeeds(o, trials[k])
    ensures |SuccessHeads(o, start, trials)| == |trials|
    ensures forall k :: 0 <= k < |trials| ==> SuccessHeads(o, start, trials)[k] == start + trials[k].draw
    decreases |trials|
  {
    if |trials| > 0 {
      SuccessHeadsAll(o, start, trials[..|trials| - 1]);
    }
  }

  /** When no trial succeeds there are no heads. */
  lemma {:induction false} SuccessHeadsNone(o: Options, start: nat, trials: seq<Trial>)
    requires forall k :: 0 <= k < |trials| ==> !Succeeds(o, trials[k])
    ensures SuccessHeads(o, start, trials) == []
    decreases |trials|
  {
    if |trials| > 0 {
      SuccessHeadsNone(o, start, trials[..|trials| - 1]);
    }
  }

  /** The heads one batch of trials yields, trial after trial as mkdigraph's
      loop takes them: a successful trial adds its head unless multi-edges
      are off and the head was already taken (a repeated draw is dropped,
      not retried). */
  function HeadIndices(o: Options, start: nat, trials: seq<Trial>): seq<nat>
    decreases |trials|
  {
    if |trials| == 0 then []
    else
      var prev := HeadIndices(o, start, trials[..|trials| - 1]);
      var t := trials[|trials| - 1];
      var head: nat := start + t.draw;
      if Succeeds(o, t) && (o.allowMultiEdges || head !in prev) then prev + [head] else prev
  }

  /** The heads are every successful draw with multi-edges, and otherwise the
      first occurrence of each successful draw. */
  lemma {:induction false} HeadIndicesDrawn(o: Options, start: nat, trials: seq<Trial>)
    ensures o.allowMultiEdges ==> HeadIndices(o, start, trials) == SuccessHeads(o, start, trials)
    ensures !o.allowMultiEdges ==> HeadIndices(o, start, trials) == Dedup(SuccessHeads(o, start, trials))
    decreases |trials|
  {
    if |trials| > 0 {
      var init := trials[..|trials| - 1];
      var t := trials[|trials| - 1];
      var head: nat := start + t.draw;
      HeadIndicesDrawn(o, start, init);
      var drawn := SuccessHeads(o, start, init);
      if Succeeds(o, t) {
        assert SuccessHeads(o, start, trials) == drawn + [head];
        if !o.allowMultiEdges {
          DedupSnoc(drawn, head);
        }
      } else {
        assert SuccessHeads(o, start, trials) == drawn;
        assert HeadIndices(o, start, trials) == HeadIndices(o, start, init);
      }
    }
  }

  /** Head indices of vertex `tail`; without loops the last vertex has none. */
  function VertexHeads(o: Options, rolls: seq<seq<Trial>>, tail: nat): seq<nat>
    requires ValidOracle(o, rolls) && tail < o.numVertices
  {
    if !o.allowLoops && tail == o.numVertices - 1 then []
    else HeadIndices(o, Start(o, tail), rolls[tail])
  }

  /** The labels of a sequence of vertices, in the same order. */
  function LabelAll(pool: seq<string>, vs: seq<nat>): (ls: seq<string>)
    ensures |ls| == |vs|
    decreases |vs|
  {
    if |vs| == 0 then [] else LabelAll(pool, vs[..|vs| - 1]) + [Label(pool, vs[|vs| - 1])]
  }

  /** Label `k` of the list is the label of vertex `k`. */
  lemma {:induction false} LabelAllLabels(pool: seq<string>, vs: seq<nat>)
    ensures forall k :: 0 <= k < |vs| ==> LabelAll(pool, vs)[k] == Label(pool, vs[k])
    decreases |vs|
  {
    if |vs| > 0 {
      var init := vs[..|vs| - 1];
      LabelAllLabels(pool, init);
      assert forall k :: 0 <= k < |init| ==> vs[k] == init[k];
    }
  }

  /** The record of vertex `tail`. */
  function VertexRecord(o: Options, rolls: seq<seq<Trial>>, tail: nat): Record
    requires ValidOracle(o, rolls) && tail < o.numVertices
  {
    Record(Label(o.labels, tail), LabelAll(o.labels, VertexHeads(o, rolls, tail)))
  }

  /** One record per vertex, in increasing index order: the graph as a
      whole, which the generator never materialises. */
  function Records(o: Options, rolls: seq<seq<Trial>>): (rs: seq<Record>)
    requires ValidOracle(o, rolls)
  {
    seq(|rolls|, i requires 0 <= i < |rolls| => VertexRecord(o, rolls, i))
  }

  /** What a pull-based consumer sees of a record stream: records are handed
      over one at a time, together with their position in the run (`from`
      for the first one), and the first one the consumer refuses is the last
      one produced. The output is a prefix of the stream in which every
      record but the last was accepted, and it stops short of the whole
      stream only after a refusal. */
  function Pull(rs: seq<Record>, from: nat, accept: (nat, string, seq<string>) -> bool): (out: seq<Record>)
    ensures out <= rs
    ensures forall j :: 0 <= j < |out| - 1 ==> accept(from + j, out[j].tail, out[j].heads)
    ensures |out| == |rs| || (|out| > 0 && !accept(from + |out| - 1, out[|out| - 1].tail, out[|out| - 1].heads))
    decreases |rs|
  {
    if |rs| == 0 then []
    else if accept(from, rs[0].tail, rs[0].heads) then [rs[0]] + Pull(rs[1..], from + 1, accept)
    else [rs[0]]
  }

  /** The whole run: every record the consumer is handed, in order. Without
      loops the last vertex ends the run whatever the consumer answers, and
      with loops the loop ends there anyway, so in both cases the run is the
      vertex records pulled until the first refusal. */
  function Digraph(o: Options, rolls: seq<seq<Trial>>, accept: (nat, string, seq<string>) -> bool): seq<Record>
    requires ValidOptions(o) && ValidOracle(o, rolls)
  {
    Pull(Records(o, rolls), 0, accept)
  }

  /** The records are the vertices in increasing index order, each record
      but the last was accepted, and the run stops early only at a refusal:
      a refused record is the last one produced. */
  lemma DigraphShape(o: Options, rolls: seq<seq<Trial>>, accept: (nat, string, seq<string>) -> bool)
    requires ValidOptions(o) && ValidOracle(o, rolls)
    ensures var out := Digraph(o, rolls, accept);
      && |out| <= o.numVertices
      && (forall j :: 0 <= j < |out| ==> out[j] == VertexRecord(o, rolls, j))
      && (forall j :: 0 <= j < |out| - 1 ==> accept(j, out[j].tail, out[j].heads))
      && (|out| == o.numVertices || (|out| > 0 && !accept(|out| - 1, out[|out| - 1].tail, out[|out| - 1].heads)))
  {
    var out := Digraph(o, rolls, accept);
    var rs := Records(o, rolls);
    forall j | 0 <= j < |out|
      ensures out[j] == VertexRecord(o, rolls, j)
    {
      assert out[j] == rs[j];
    }
  }

  /** A consumer that never stops sees exactly one record per vertex, tails
      labelled 0, 1, ..., numVertices - 1 in order; zero vertices give none. */
  lemma DigraphComplete(o: Options, rolls: seq<seq<Trial>>, accept: (nat, string, seq<string>) -> bool)
    requires ValidOptions(o) && ValidOracle(o, rolls)
    requires forall i, t, h :: accept(i, t, h)
    ensures |Digraph(o, rolls, accept)| == o.numVertices
    ensures forall j :: 0 <= j < o.numVertices ==> Digraph(o, rolls, accept)[j].tail == Label(o.labels, j)
  {
    DigraphShape(o, rolls, accept);
  }

  /** Every head lies in the permissible range: `0 <= h < numVertices` with
      loops, `tail < h < numVertices` without; the last vertex has no heads
      when loops are off. */
  lemma HeadsInRange(o: Options, rolls: seq<seq<Trial>>, tail: nat)
    requires ValidOptions(o) && ValidOracle(o, rolls) && tail < o.numVertices
    ensures forall j :: 0 <= j < |VertexHeads(o, rolls, tail)| ==>
              Start(o, tail) <= VertexHeads(o, rolls, tail)[j] < o.numVertices
    ensures !o.allowLoops ==> forall j :: 0 <= j < |VertexHeads(o, rolls, tail)| ==> tail < VertexHeads(o, rolls, tail)[j]
    ensures !o.allowLoops && tail == o.numVertices - 1 ==> VertexHeads(o, rolls, tail) == []
  {
    if o.allowLoops || tail < o.numVertices - 1 {
      var trials := rolls[tail];
      var start := Start(o, tail);
      assert forall k :: 0 <= k < |trials| ==> ValidTrial(o, tail, trials[k]);
      SuccessHeadsBounded(o, start, trials, o.numVertices - start);
      HeadIndicesDrawn(o, start, trials);
    }
  }

  /** A vertex has at most `maxEdges` heads, and none at all when there are
      no trials or the edge probability is zero. */
  lemma HeadsCount(o: Options, rolls: seq<seq<Trial>>, tail: nat)
    requires ValidOptions(o) && ValidOracle(o, rolls) && tail < o.numVertices
    ensures |VertexHeads(o, rolls, tail)| <= o.maxEdges
    ensures o.maxEdges == 0 || o.edgeProb == 0.0 ==> VertexHeads(o, rolls, tail) == []
  {
    var trials := rolls[tail];
    assert forall k :: 0 <= k < |trials| ==> ValidTrial(o, tail, trials[k]);
    HeadIndicesDrawn(o, Start(o, tail), trials);
    if o.edgeProb == 0.0 {
      SuccessHeadsNone(o, Start(o, tail), trials);
    }
  }

  /** Without multi-edges no head repeats within one record. */
  lemma HeadsDistinct(o: Options, rolls: seq<seq<Trial>>, tail: nat)
    requires ValidOptions(o) && ValidOracle(o, rolls) && tail < o.numVertices
    requires !o.allowMultiEdges
    ensures Distinct(VertexHeads(o, rolls, tail))
  {
    HeadIndicesDrawn(o, Start(o, tail), rolls[tail]);
  }

  /** With multi-edges every successful trial adds its head, in trial order;
      when the probability is one that is exactly `maxEdges` heads. */
  lemma HeadsMulti(o: Options, rolls: seq<seq<Trial>>, tail: nat)
    requires ValidOptions(o) && ValidOracle(o, rolls) && tail < o.numVertices
    requires o.allowMultiEdges && (o.allowLoops || tail < o.numVertices - 1)
    ensures VertexHeads(o, rolls, tail) == SuccessHeads(o, Start(o, tail), rolls[tail])
    ensures o.edgeProb == 1.0 ==> |VertexHeads(o, rolls, tail)| == o.maxEdges
  {
    var trials := rolls[tail];
    assert forall k :: 0 <= k < |trials| ==> ValidTrial(o, tail, trials[k]);
    HeadIndicesDrawn(o, Start(o, tail), trials);
    if o.edgeProb == 1.0 {
      SuccessHeadsAll(o, Start(o, tail), trials);
    }
  }

  /** With a clean pool, labels keep the structural guarantees: no tail label
      occurs on two records, without multi-edges no record repeats a head,
      and without loops no record names its own tail as a head. */
  lemma DigraphLabels(o: Options, rolls: seq<seq<Trial>>, accept: (nat, string, seq<string>) -> bool)
    requires ValidOptions(o) && ValidOracle(o, rolls) && CleanPool(o.labels)
    ensures var out := Digraph(o, rolls, accept);
      && (forall a, b :: 0 <= a < b < |out| ==> out[a].tail != out[b].tail)
      && (!o.allowMultiEdges ==> forall j :: 0 <= j < |out| ==> Distinct(out[j].heads))
      && (!o.allowLoops ==> forall j :: 0 <= j < |out| ==> out[j].tail !in out[j].heads)
  {
    var out := Digraph(o, rolls, accept);
    DigraphShape(o, rolls, accept);
    forall a, b | 0 <= a < b < |out|
      ensures out[a].tail != out[b].tail
    {
      if out[a].tail == out[b].tail {
        LabelInjective(o.labels, a, b);
      }
    }
    forall j | 0 <= j < |out|
      ensures !o.allowMultiEdges ==> Distinct(out[j].heads)
      ensures !o.allowLoops ==> out[j].tail !in out[j].heads
    {
      var hs := VertexHeads(o, rolls, j);
      var ls := out[j].heads;
      assert ls == LabelAll(o.labels, hs);
      LabelAllLabels(o.labels, hs);
      if !o.allowMultiEdges {
        HeadsDistinct(o, rolls, j);
        forall x, y | 0 <= x < y < |ls|
          ensures ls[x] != ls[y]
        {
          if ls[x] == ls[y] {
            LabelInjective(o.labels, hs[x], hs[y]);
          }
        }
      }
      if !o.allowLoops {
        HeadsInRange(o, rolls, j);
        if out[j].tail in ls {
          var x :| 0 <= x < |ls| && ls[x] == out[j].tail;
          LabelInjective(o.labels, hs[x], j);
        }
      }
    }
  }

  lemma LabelAllSnoc(pool: seq<string>, vs: seq<nat>, v: nat)
    ensures LabelAll(pool, vs + [v]) == LabelAll(pool, vs) + [Label(pool, v)]
  {
    assert (vs + [v])[..|vs|] == vs;
  }

  /** One more trial extends the heads exactly as the body of mkdigraph's
      trial loop does. */
  lemma HeadIndicesSnoc(o: Options, start: nat, trials: seq<Trial>, k: nat)
    requires k < |trials|
    ensures var prev := HeadIndices(o, start, trials[..k]);
      var head: nat := start + trials[k].draw;
      HeadIndices(o, start, trials[..k + 1]) ==
        if Succeeds(o, trials[k]) && (o.allowMultiEdges || head !in prev) then prev + [head] else prev
  {
    assert trials[..k + 1][..k] == trials[..k];
  }

  /** A set that mirrors the elements of a sequence keeps doing so when both
      gain the same element. */
  lemma TakenSnoc(taken: set<nat>, picked: seq<nat>, head: nat)
    requires forall h :: h in taken <==> h in picked
    ensures forall h :: h in taken + {head} <==> h in picked + [head]
  {
  }

  /** One turn of the trial loop: the heads, the labels and the set of heads
      taken so far all advance together. */
  lemma SampleStep(o: Options, start: nat, trials: seq<Trial>, k: nat, picked: seq<nat>, taken: set<nat>, head: nat)
    requires k < |trials| && head == start + trials[k].draw
    requires picked == HeadIndices(o, start, trials[..k])
    requires !o.allowMultiEdges ==> forall h :: h in taken <==> h in picked
    ensures Succeeds(o, trials[k]) && (o.allowMultiEdges || head !in taken) ==>
              picked + [head] == HeadIndices(o, start, trials[..k + 1])
    ensures Succeeds(o, trials[k]) && !o.allowMultiEdges && head !in taken ==>
              forall h :: h in taken + {head} <==> h in picked + [head]
    ensures !(Succeeds(o, trials[k]) && (o.allowMultiEdges || head !in taken)) ==>
              picked == HeadIndices(o, start, trials[..k + 1])
  {
    HeadIndicesSnoc(o, start, trials, k);
    if !o.allowMultiEdges {
      TakenSnoc(taken, picked, head);
    }
  }

  /** The trial loop of one vertex, with mkdigraph's duplicate set:
      computes the head labels `HeadIndices` describes. */
  method SampleHeads(o: Options, start: nat, trials: seq<Trial>) returns (heads: seq<string>)
    ensures heads == LabelAll(o.labels, HeadIndices(o, start, trials))
  {
    heads := [];
    var selHeads: set<nat> := {};
    ghost var picked: seq<nat> := [];
    var k := 0;
    while k < |trials|
      invariant 0 <= k <= |trials|
      invariant picked == HeadIndices(o, start, trials[..k])
      invariant heads == LabelAll(o.labels, picked)
      invariant !o.allowMultiEdges ==> forall h :: h in selHeads <==> h in picked
    {
      var t := trials[k];
      var head: nat := start + t.draw;
      SampleStep(o, start, trials, k, picked, selHeads, head);
      if Succeeds(o, t) {
        if o.allowMultiEdges || head !in selHeads {
          if !o.allowMultiEdges {
            selHeads := selHeads + {head};
          }
          LabelAllSnoc(o.labels, picked, head);
          heads := heads + [Label(o.labels, head)];
          picked := picked + [head];
        }
      }
      k := k + 1;
    }
    assert trials[..k] == trials;
  }

  /** Handing over record `i` of the stream, at position `i`: the run so far
      grows by that record, and the rest of the run is pulled from the
      records after it unless the consumer refused. */
  lemma PullStep(done: seq<Record>, rs: seq<Record>, i: nat, accept: (nat, string, seq<string>) -> bool)
    requires i < |rs|
    ensures accept(i, rs[i].tail, rs[i].heads) ==>
              done + Pull(rs[i..], i, accept) == (done + [rs[i]]) + Pull(rs[i + 1..], i + 1, accept)
    ensures !accept(i, rs[i].tail, rs[i].heads) ==> done + Pull(rs[i..], i, accept) == done + [rs[i]]
  {
    assert rs[i..][1..] == rs[i + 1..];
    if accept(i, rs[i].tail, rs[i].heads) {
      var later := Pull(rs[i + 1..], i + 1, accept);
      assert Pull(rs[i..], i, accept) == [rs[i]] + later;
      assert done + ([rs[i]] + later) == (done + [rs[i]]) + later;
    }
  }

  /** The record the generator loop builds for vertex `tail` is the one
      the model assigns to it. */
  lemma RecordOfVertex(o: Options, rolls: seq<seq<Trial>>, tail: nat, heads: seq<string>)
    requires ValidOracle(o, rolls) && tail < o.numVertices
    requires if !o.allowLoops && tail == o.numVertices - 1 then heads == []
             else heads == LabelAll(o.labels, HeadIndices(o, Start(o, tail), rolls[tail]))
    ensures VertexRecord(o, rolls, tail) == Record(Label(o.labels, tail), heads)
  {
  }

  /** The generator loop unrolled from vertex `tail` on, after the records
      `acc`: each vertex record is handed over in turn, and a refused record
      is the last one. */
  function RunFrom(o: Options, rolls: seq<seq<Trial>>, accept: (nat, string, seq<string>) -> bool,
                   acc: seq<Record>, tail: nat): seq<Record>
    requires ValidOracle(o, rolls) && tail <= o.numVertices
    decreases o.numVertices - tail
  {
    if tail == o.numVertices then acc
    else
      var r := VertexRecord(o, rolls, tail);
      if accept(tail, r.tail, r.heads) then RunFrom(o, rolls, accept, acc + [r], tail + 1) else acc + [r]
  }

  /** The unrolled loop continues the records so far with the vertex records
      from `tail` on, as the consumer pulls them. */
  lemma {:induction false} RunFromPull(o: Options, rolls: seq<seq<Trial>>, accept: (nat, string, seq<string>) -> bool,
                                       acc: seq<Record>, tail: nat)
    requires ValidOracle(o, rolls) && tail <= o.numVertices
    ensures RunFrom(o, rolls, accept, acc, tail) == acc + Pull(Records(o, rolls)[tail..], tail, accept)
    decreases o.numVertices - tail
  {
    var rs := Records(o, rolls);
    if tail == o.numVertices {
      assert rs[tail..] == [];
      assert acc + [] == acc;
    } else {
      PullStep(acc, rs, tail, accept);
      var r := VertexRecord(o, rolls, tail);
      assert rs[tail] == r;
      if accept(tail, r.tail, r.heads) {
        RunFromPull(o, rolls, accept, acc + [r], tail + 1);
      }
    }
  }

  /** Unrolling the loop from the first vertex gives the whole run. */
  lemma RunFromStart(o: Options, rolls: seq<seq<Trial>>, accept: (nat, string, seq<string>) -> bool)
    requires ValidOptions(o) && ValidOracle(o, rolls)
    ensures RunFrom(o, rolls, accept, [], 0) == Digraph(o, rolls, accept)
  {
    RunFromPull(o, rolls, accept, [], 0);
    assert Records(o, rolls)[0..] == Records(o, rolls);
    assert [] + Digraph(o, rolls, accept) == Digraph(o, rolls, accept);
  }

  /** mkdigraph's generator loop: produces exactly the records
      `Digraph` describes, calling the consumer on each. Without loops the
      last vertex ends the run whatever the consumer answers. */
  method Generate(o: Options, rolls: seq<seq<Trial>>, accept: (nat, string, seq<string>) -> bool) returns (out: seq<Record>)
    requires ValidOptions(o) && ValidOracle(o, rolls)
    ensures out == Digraph(o, rolls, accept)
  {
    RunFromStart(o, rolls, accept);
    out := [];
    var tail := 0;
    while tail < o.numVertices
      invariant 0 <= tail <= o.numVertices
      invariant RunFrom(o, rolls, accept, out, tail) == Digraph(o, rolls, accept)
      decreases o.numVertices - tail
    {
      var name := Label(o.labels, tail);
      if !o.allowLoops && tail == o.numVertices - 1 {
        RecordOfVertex(o, rolls, tail, []);
        var _ := accept(tail, name, []);
        out := out + [Record(name, [])];
        return;
      }
      var heads := SampleHeads(o, Start(o, tail), rolls[tail]);
      RecordOfVertex(o, rolls, tail, heads);
      out := out + [Record(name, heads)];
      if !accept(tail, name, heads) {
        return;
      }
      tail := tail + 1;
    }
  }
}
