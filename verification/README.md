# mkdigraph, modelled in Dafny

mkdigraph generates random directed graphs as a stream. For every vertex, in
increasing index order, it hands one record to a consumer. A record is the
vertex's label (the tail) and the labels of its out-neighbours (the heads).
The graph as a whole is never stored.

The heads of a vertex come from `maxEdges` Bernoulli trials. Each trial
succeeds with the edge probability. A successful trial draws a head from the
permissible range: every vertex when loops are allowed, otherwise only the
vertices after the tail. Without multi-edges a head that was already drawn for
this vertex is dropped, not retried. Without loops the last vertex has no
permissible head: it is handed over with an empty head list, and the stream
ends there. When the consumer refuses a record, the stream stops after it.

A label is the decimal index when there is no label pool. Otherwise it is the
pool entry at `index mod |pool|`, and once the pool has wrapped around the
decimal index is appended. The plain-text output writes one `tail head` line
per edge and a lone `tail` line for a vertex without heads. The DOT output
writes the same entries as `  tail -> head` and `  tail`, between
`digraph {` and `}`.

The model is split into modules:

- `Wrappers` and `Seqs` (basics.dfy) hold the optional value, distinctness,
  and first-occurrence deduplication.
- `Decimal` (decimal.dfy) writes decimal numerals the way `strconv.Itoa` does
  for non-negative numbers, and reads them back.
- `Labels` (labels.dfy) has the label function and its inverse `Unlabel`.
  The inverse shows that labels are injective on the pool shape a cleaned
  words file has.
- `Generator` (generator.dfy) has the parameter checks, the trials, and the
  records. `Digraph` is the functional reference of a run. `SampleHeads` and
  `Generate` are mkdigraph's loops, with the duplicate set, and are proved
  to compute that reference.
- `Output` (output.dfy) has both output layouts and the parsers that read
  them back.
- `Scenarios` (scenarios.dfy) holds the runs of mkdigraph_test.go's table and
  one five-vertex run, proved for every random source those runs allow.

Randomness is an oracle. `rolls` holds one row of exactly `maxEdges` trials
per vertex. A trial has a `sample`, a real in [0,1) standing for
`rand.Float64`, and a `draw`, standing for `randIntN(numVertices - start)`. A
trial succeeds when `sample < edgeProb`. The draw must lie in the permissible
range whenever that range is non-empty. The consumer is a function
`accept(position, tail, heads)`: it is handed each record with its position
in the run, and returns false to stop the stream. For a fixed oracle the
records before a position are fixed by that position, so this covers every
consumer whose decision depends on what it has seen so far, such as one that
stops after the k-th record.

## Model

| member | source | states |
|---|---|---|
| Decimal.Format | mkdigraph.go:265 | the numeral of a vertex index is non-empty and all digits, and has a leading zero only for zero itself |
| Decimal.Parse | mkdigraph.go:271 | reading a numeral succeeds exactly on non-empty all-digit text |
| Decimal.CanonicalIsFormat | mkdigraph.go:265 | a numeral without a superfluous leading zero that reads as `n` is the numeral written for `n`, so the label contract pins the decimal text exactly |
| Decimal.ParseFormat | mkdigraph.go:265 | reading a written numeral back gives the index that was written |
| Labels.CleanPool | mkdigraph.go:151-173 | the shape of the words a words file yields: entries pairwise distinct, each a non-empty run of ASCII letters; the empty pool has this shape too |
| Labels.Label | mkdigraph.go:263-272 | no pool: the label is a canonical numeral of the index. With a pool: the label starts with the pool entry at `n` modulo the pool size; it is exactly that entry iff `n` is below the pool size; after a wrap the rest of the label is a canonical numeral of `n` |
| Labels.Unlabel | mkdigraph.go:263-272 | inverse partner of the label function; its round trip is stated by `Labels.UnlabelLabel` |
| Labels.UnlabelLabel | mkdigraph.go:263-272 | with a clean pool (distinct, non-empty, letters-only entries, or no pool), every label reads back as the index it was made from |
| Labels.LabelInjective | mkdigraph.go:60-64 | with a clean pool, two indices with the same label are the same index |
| Labels.LabelAlphanumeric | mkdigraph.go:151-173 | labels from a clean pool hold only letters and digits, so never a space |
| Labels.LabelExamples | mkdigraph_test.go:218-261 | the test table's labels: `A`, `B`, `A2`, `B5` from pool `A B`; `2` and `5` without a pool |
| Seqs.Dedup | mkdigraph.go:242-251 | the deduplicated heads contain only drawn heads, have no repeats, and are no more numerous than the draws |
| Seqs.DedupKeeps | mkdigraph.go:246-251 | no drawn head is lost by skipping repeats |
| Seqs.DedupSnoc | mkdigraph.go:246-251 | one more draw is appended exactly when it was not drawn before |
| Generator.ValidOptions | mkdigraph.go:215-223 | the parameters the generator accepts: both counts non-negative and the edge probability in [0,1] |
| Generator.CheckOptions | mkdigraph.go:215-223 | parameters are refused exactly when a count is negative or the probability is outside [0,1]; the vertex count is checked first, then the edge count (both panics), then the probability (a fatal error) |
| Generator.Start | mkdigraph.go:229-239 | the first permissible head index: 0 with loops, the vertex after the tail without |
| Generator.ValidTrial | mkdigraph.go:244-245 | a trial the random source can supply: a sample in [0,1), and a draw below the number of permissible heads whenever there are any |
| Generator.ValidOracle | mkdigraph.go:226-254 | the random source for a run: one row of exactly `maxEdges` valid trials per vertex |
| Generator.Succeeds | mkdigraph.go:244 | a trial adds an edge when its sample falls below the edge probability |
| Generator.SuccessHeads | mkdigraph.go:243-245 | a vertex has no more successful trials than trials |
| Generator.SuccessHeadsBounded | mkdigraph.go:245 | every successful trial's head is `start` plus a draw, so it lies in `[start, start + bound)` when draws stay below `bound` |
| Generator.SuccessHeadsAll | mkdigraph.go:243-245 | when every trial succeeds, the heads are exactly the draws, in trial order |
| Generator.SuccessHeadsNone | mkdigraph.go:243-244 | when no trial succeeds there are no heads |
| Generator.HeadIndices | mkdigraph.go:241-253 | the trial loop, trial by trial: a successful trial appends `start` plus its draw, unless multi-edges are off and that head was already taken; a failed or duplicate trial appends nothing |
| Generator.HeadIndicesDrawn | mkdigraph.go:241-253 | the trial loop keeps every successful head with multi-edges, and otherwise the first occurrence of each |
| Generator.HeadIndicesSnoc | mkdigraph.go:243-252 | helper: unfolds `HeadIndices` by one trial, for `SampleStep` and the scenario lemmas |
| Generator.SampleStep | mkdigraph.go:246-252 | one trial advances the heads and the duplicate set together; the set keeps holding exactly the heads taken |
| Generator.SampleHeads | mkdigraph.go:241-254 | the trial loop with its duplicate set computes the labels of the heads `HeadIndicesDrawn` describes |
| Generator.VertexHeads | mkdigraph.go:229-253 | the head indices of a vertex: none for the last vertex without loops, otherwise the trial loop over its row of trials from `Start` |
| Generator.LabelAll | mkdigraph.go:252 | one label per head |
| Generator.LabelAllLabels | mkdigraph.go:252 | label `k` of the head list is the label of head `k` |
| Generator.LabelAllSnoc | mkdigraph.go:252 | helper: unfolds `LabelAll` by one head, for `SampleStep` |
| Generator.VertexRecord | mkdigraph.go:227-254 | the record a vertex yields: its label as tail, and the labels of its head indices |
| Generator.Records | mkdigraph.go:226-254 | the whole graph as one record per vertex in index order, which the generator never materialises |
| Generator.Pull | mkdigraph.go:256-258 | the consumer sees a prefix of the record stream; every record but the last was accepted at its position; the stream stops short only after a refusal |
| Generator.PullStep | mkdigraph.go:256-258 | helper: unfolds `Pull` by one record, for `RunFromPull` |
| Generator.RecordOfVertex | mkdigraph.go:226-254 | helper: unfolds `VertexRecord` and `VertexHeads` for one vertex, for `Generate` |
| Generator.Digraph | mkdigraph.go:225-260 | the reference run: the records of all vertices, as far as the consumer pulls them |
| Generator.RunFrom | mkdigraph.go:226-259 | the generator loop unrolled from a vertex onwards: hand over that vertex's record, stop after a refusal or after the last vertex, otherwise go on with the next vertex |
| Generator.RunFromPull | mkdigraph.go:225-260 | mkdigraph's loop, unrolled from any vertex, continues the run with the later vertex records as the consumer pulls them |
| Generator.RunFromStart | mkdigraph.go:225-260 | the unrolled loop from vertex 0 is the whole run |
| Generator.Generate | mkdigraph.go:214-261 | the generator loop produces exactly the run `Digraph` describes |
| Generator.DigraphShape | mkdigraph.go:225-260 | at most `numVertices` records, record `j` is vertex `j`'s, every record but the last was accepted, and the run stops early only at a refusal |
| Generator.DigraphComplete | mkdigraph.go:226-227 | a consumer that never stops gets exactly `numVertices` records, tails labelled by indices 0, 1, ... in order |
| Generator.HeadsInRange | mkdigraph.go:229-245 | heads lie in `[0, N)` with loops and in `(tail, N)` without; without loops the last vertex has no heads |
| Generator.HeadsCount | mkdigraph.go:243-244 | at most `maxEdges` heads; none when `maxEdges` is 0 or the probability is 0 |
| Generator.HeadsDistinct | mkdigraph.go:242-251 | without multi-edges the heads of a vertex are pairwise distinct |
| Generator.HeadsMulti | mkdigraph.go:244-252 | with multi-edges every successful trial adds its head in trial order; with probability 1 that is exactly `maxEdges` heads |
| Generator.DigraphLabels | mkdigraph.go:53-54 | with a clean pool no tail label occurs twice in a run; without multi-edges no record repeats a head label; without loops no record names its own tail |
| Output.TextLine | mkdigraph.go:179-182 | a lone tail is written as the tail, an edge as tail, space, head |
| Output.DotLine | mkdigraph.go:192-195 | a lone tail is written indented by two spaces, an edge as indented tail, ` -> `, head |
| Output.RecordEntries | mkdigraph.go:178-184 | definition: a record without heads is one lone-tail entry, otherwise one edge per head, in order |
| Output.Entries | mkdigraph.go:176-186 | the entries of a whole run, record after record in the order the run yields them |
| Output.RecordText | mkdigraph.go:178-184 | line `k` of a record's text renders its entry `k` |
| Output.TextLines | mkdigraph.go:176-186 | one text line per entry of the run |
| Output.TextLinesEntries | mkdigraph.go:176-186 | line `k` of the plain-text output renders entry `k` of the run |
| Output.RecordDot | mkdigraph.go:191-197 | line `k` of a record's DOT body renders its entry `k` |
| Output.DotBody | mkdigraph.go:190-198 | one DOT body line per entry of the run |
| Output.DotBodyEntries | mkdigraph.go:190-198 | line `k` of the DOT body renders entry `k` of the run |
| Output.DotLines | mkdigraph.go:188-200 | line `k + 1` of the DOT output renders entry `k` of the run, between a first line `digraph {` and a last line `}` |
| Output.ParseText | mkdigraph.go:179-182 | definition: reads each line as one entry; `TextRoundTrip` makes it the inverse of the text layout |
| Output.TextRoundTrip | mkdigraph.go:176-186 | reading the text output back gives every entry of the run in order, when no tail contains a space |
| Output.DotRoundTrip | mkdigraph.go:188-200 | reading the DOT output back gives every entry of the run in order, when no tail contains a space |
| Output.DotBodyRoundTrip | mkdigraph.go:191-196 | DOT body lines read back as the entries they render |
| Output.ParseTextLineRoundTrip | mkdigraph.go:179-182 | a text line reads back as its entry |
| Output.ParseDotLineRoundTrip | mkdigraph.go:192-195 | a DOT line reads back as its entry |
| Output.EntriesTails | mkdigraph.go:176-200 | when no record tail contains a space, no entry tail does |
| Output.RunTailsSpaceFree | mkdigraph.go:176-200 | with a clean pool no tail of a run contains a space |
| Output.EntryFromRecord | mkdigraph.go:176-200 | every entry names the tail of one of the run's records |
| Output.EntriesUnique | mkdigraph.go:49-54 | with distinct tails no single-field entry repeats; when no record repeats a head, no entry repeats at all |
| Output.EntriesOfRunUnique | mkdigraph.go:49-54 | with a clean pool single-field entries are unique, and without multi-edges every entry is |
| Output.OutputRoundTrip | mkdigraph.go:176-200 | with a clean pool both outputs of any run read back as that run's entries |
| Scenarios.RunIsRecords | mkdigraph_test.go:154-171 | a consumer collecting everything gets one record per vertex, in order |
| Scenarios.ZeroLabel | mkdigraph_test.go:127-129 | without a pool vertices 0 and 1 are labelled `0` and `1` |
| Scenarios.OneVertexLoopsMultiEdges | mkdigraph_test.go:79-91 | one vertex, loops and multi-edges, probability 1: the run is vertex `0` with heads `0`, `0` |
| Scenarios.OneVertexNoLoops | mkdigraph_test.go:92-117 | one vertex without loops: the run is vertex `0` with no heads, with or without multi-edges |
| Scenarios.TwoVerticesHeads | mkdigraph_test.go:118-145 | two vertices without loops: vertex 0's heads are `1, 1` with multi-edges and `1` without |
| Scenarios.TwoVerticesNoLoops | mkdigraph_test.go:118-145 | the full two-vertex runs: `0 -> 1 1` or `0 -> 1`, then `1` with no heads |
| Scenarios.Edgeless | mkdigraph_test.go:176-199 | five vertices, no trials, probability 0: five records, all without heads |
| Scenarios.OrderZero | mkdigraph_test.go:201-215 | zero vertices give an empty run |
| Scenarios.FiveVertices | mkdigraph.go:229-253 | five vertices, two certain trials, no loops, no multi-edges: vertex 0 has one or two distinct heads among 1..4, and vertex 4 has none |

## Left out

- Command-line handling in `main` and `usage` (flags, argument count, opening the output file, `os.Exit`) is not modelled. It is plumbing around the generator.
- Reading the words file in `readWords` is not modelled: the file I/O, the scanner, and the map-key order of its result. Only the shape of its result is kept, as the `CleanPool` precondition: distinct, non-empty, letters-only entries.
- The pseudo-random generator (`rand.Float64`, `rand.IntN`, the `randIntN` hook) is replaced by the oracle rows. No statistical property is stated.
- Floating point is modelled by reals. A NaN edge probability passes mkdigraph's range check and makes every trial fail; reals have no NaN, so this case is not modelled.
- `io.Writer` and `fmt.Fprintf` are replaced by sequences of lines. Write errors are not modelled.
- The `iter.Seq2` coroutine machinery is replaced by the `accept` function, which sees each record with its position and keeps the stop-when-refused rule. Side effects of the consumer are not modelled.
- Generator.CheckOptions: the fatal message for a bad probability drops the formatted value. The failed check itself is a precondition of `Generate` and `Digraph`, which never run with invalid parameters.
- Labels.Label: indices are natural numbers, so the `-` sign of negative numerals is not modelled. The generator never labels a negative index.
- A failed trial carries a draw that the model ignores. mkdigraph does not draw a head for a failed trial.
