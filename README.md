# Facial-expression change analysis and its Turing machines, in Dafny

This project models the decision core of a small Python system, together with proofs about that model.
The system compares a neutral face with a target face (the same face, e.g. smiling), landmark by landmark. It then:

- thresholds each landmark's displacement into a 0/1 change vector;
- joins the changed landmarks into a change graph;
- bands the neutral face's landmarks into mouth, eyes and brows;
- labels the change happy, sad, neutral or reject with a rule-based classifier (`SimpleEmotionDFA`).

Beside that runs a teaching component: a Turing-machine simulator with three builders and a snapshot serialiser, a majority rule over binary vectors (`decide_from_vector`), and the generator that turns the two neutral-to-target decisions into an automaton table and a five-state Turing machine.

Modules, one per source component:

| module | file | models |
|---|---|---|
| `Wrappers` | wrappers.dfy | `Option` / `Result` |
| `IntSets` | int_sets.dfy | `min`/`max` over tape positions |
| `Text` | text.dfy | `str(int)`, `int(str)`, Python string order, `sorted(set)` |
| `TuringModel` | turing_model.dfy | machine definition and configuration as values; `_read`, `_write`, `step`, `run` as functions |
| `Turing` | turing.dfy | class `TuringMachine`: fields updated in place by `reset`, `_write`, `step`, `run`; `tape_str`; `spec`, `to_snapshot`, `from_snapshot` |
| `TuringCodec` | turing_codec.dfy | the serialised form and its decoding |
| `TuringBuilders` | turing_builders.dfy | `sample_majority_tm`, `make_majority_tm_from_length`, `make_from_automaton_map` |
| `Labels` | labels.dfy | the four labels; counting ones and zeros |
| `RunAutomaton` | run_automaton.dfy | `decide_from_vector` |
| `GenerateDigraphs` | generate_digraphs.dfy | `decide`, the automaton table, the generated Turing machine |
| `Utils` | utils.dfy | `bbox_from_landmarks`, the 68-point table, `map_landmarks_to_regions` |
| `Digraph` | digraph.dfy | `digraph_from_difference` |
| `Dfa` | dfa.dfy | `SimpleEmotionDFA.__init__` and `predict` |
| `Pipeline` | pipeline.dfy | `FacialStatePipeline.__init__` and `analyze_pair` |

Modelling choices:

- **The simulator is imperative.** It is a class whose runtime fields (`tape`, `head`, `state`, `halted`) its methods update. Each method's postcondition ties the new state to `TuringModel.StepConfig` or `TuringModel.RunConfig` of the old state. The builder proofs run those functions.
- **Coordinates, displacements and thresholds are reals.** The Euclidean norm `np.linalg.norm` is a parameter of type `Digraph.Norm`. It is any function that is non-negative and gives `|x|` on each axis.
- **Loops stay loops.** The region banding loop (`Utils.BandLandmarks`), the graph-building loops (`Digraph.BuildChangeGraph`, `ConnectChanged`, `ConnectFrom`), `TuringMachine.Run` and `TuringMachine.TapeStr` are methods with loop invariants. Python's list comprehensions, dictionary literals and if-chains are functions.
- **Extractor answers are inputs.** `analyze_pair` takes as inputs the two landmark lists the extractor would return, `None` meaning no face.

Where a name, a comment or an earlier, shadowed definition in the source (`src/utils.py:22-59`) disagrees with the code that runs, the model follows the code:

- Regions are banded at 33 % / 60 % of the box height, by the effective later definition in `src/utils.py`. The earlier, shadowed definition uses 33 % / 66 % and has a 68-point branch, and it is not used.
- The eye and mouth thresholds coincide, so "brows" is everything above the 33 % line that is not mouth.
- `sample_majority_tm` does not compute a majority: it accepts every binary string.
- `make_from_automaton_map` ignores the map: it accepts iff a '1' occurs.

## Model

| member | source | states |
|---|---|---|
| Turing.TuringMachine.constructor | src/turing.py:14-38 | the definition holds the given sets, blank, transitions and start state, with a missing reject set standing for the empty set; the runtime starts with an empty tape, head 0, the start state, not halted |
| Turing.TuringMachine.Reset | src/turing.py:41-49 | tape position i holds the i-th input character for 0 ≤ i < \|input\|, no other position is present, head 0, start state, not halted |
| Turing.TuringMachine.Write | src/turing.py:54-60 | writing the blank removes the head's position, any other symbol is stored there, and every other position keeps its presence and its symbol |
| Turing.TuringMachine.Step | src/turing.py:62-94 | the new runtime state is one step of the machine (TuringModel.StepConfig) from the old one, and the returned triple is the new state, head and symbol under the head |
| Turing.TuringMachine.Run | src/turing.py:96-102 | the loop ends in the configuration and step count of TuringModel.RunConfig from the old configuration, and returns the final state |
| Turing.TuringMachine.TapeStr | src/turing.py:104-123 | an empty tape gives the blank and index 0; otherwise the symbols from max(leftmost key, head − window) to min(rightmost key, head + window) and the head's offset from the left end |
| Turing.TapeWindowAt | src/turing.py:119-122 | with one-character symbols the window has one character per position, and the character at the returned head offset is the head's symbol |
| Turing.TuringMachine.Spec | src/turing.py:165-180 | decoding the specification (what `from_snapshot` does with it) gives back this machine's definition whenever no state with a transition contains ',' |
| Turing.TuringMachine.ToSnapshot | src/turing.py:182-192 | decoding the snapshot gives back this machine's definition and its runtime state, whenever no state with a transition contains ',' |
| Turing.TuringMachine.FromSnapshot | src/turing.py:194-217 | the result is absent exactly when some tape key is not an integer (where `int(k)` raises); otherwise a fresh machine whose definition and runtime are the decoded snapshot |
| TuringModel.InputTape | src/turing.py:46 | the tape built from an input holds exactly positions 0..\|input\|−1, each the one-character symbol of the input there |
| TuringModel.RunConfig | src/turing.py:96-102 | max_steps ≤ 0 or an already halted machine: no change and 0 steps; the step count never exceeds max_steps (or is 0); fewer steps than max_steps means the machine halted |
| TuringModel.ReadUnwritten | src/turing.py:51-52 | a position absent from the tape reads as the blank |
| TuringModel.ReadAfterWrite | src/turing.py:51-60 | after a write the head reads the written symbol; the blank removes the head's key, another symbol sets it; no other position changes |
| TuringModel.WriteBackKeepsTape | src/turing.py:54-60 | writing back the symbol just read leaves the tape unchanged, unless the tape held the blank explicitly at the head |
| TuringModel.StepHalted | src/turing.py:68-69 | a step of a halted machine changes nothing |
| TuringModel.StepUndefined | src/turing.py:71-77 | with no transition for (state, read symbol) the step only sets halted; tape, head and state are unchanged |
| TuringModel.StepDefined | src/turing.py:79-94 | a defined transition writes its symbol, moves the head +1 for 'R', −1 for 'L' and not at all otherwise, enters the next state, and halts iff that state is accepting or rejecting |
| TuringModel.RunAlong | src/turing.py:96-102 | a run that follows a path of running configurations, each stepping to the next and the last halted, ends at the last one after \|path\| − 1 steps |
| TuringBuilders.SampleStep | src/turing.py:231-238 | the sample scanner moves right over '0' and '1' (q_start, then q_scan) and accepts on the blank without moving or writing |
| TuringBuilders.SampleAcceptsAll | src/turing.py:220-242 | `sample_majority_tm` accepts every binary string, after \|s\| + 1 steps, head on the first blank, tape unchanged |
| TuringBuilders.MakeMajorityTmFromLength | src/turing.py:253-289 | building fails exactly for n ≤ 0; otherwise the start state is q_0, the accept set {q_accept} and the reject set {q_reject} |
| TuringBuilders.MajorityTransitionAt | src/turing.py:264-285 | every counting state q_k (k ≤ n) has a transition on '0', '1' and the blank: '1' moves right into q_min(n, k+1), '0' into q_k, and the blank decides k > n // 2 |
| TuringBuilders.QNameInjective | src/turing.py:265-266 | distinct counts give distinct state names `q_k` |
| TuringBuilders.QNameNotFinal | src/turing.py:265-268 | no counting state is q_accept or q_reject |
| TuringBuilders.MajorityStepSymbol | src/turing.py:271-278 | reading input symbol i, the counting state moves right into the state counting the ones among the first i + 1 symbols, tape unchanged and not halted |
| TuringBuilders.MajorityStepBlank | src/turing.py:280-285 | on the blank after n symbols the machine halts in q_accept iff it has seen more than n // 2 ones, else in q_reject, tape unchanged |
| TuringBuilders.MajorityPathSteps | src/turing.py:264-289 | each configuration on the majority machine's path over the input is running and steps to the next one |
| TuringBuilders.MajorityDecides | src/turing.py:244-289 | on every length-n binary string, a run of at least n + 1 steps halts after exactly n + 1 steps, in q_accept iff #ones > n // 2 and in q_reject otherwise, head on the first blank, tape unchanged |
| TuringBuilders.ScanStep | src/turing.py:304-311 | the scanner accepts on '1' and rejects on the blank, neither moving nor writing, and moves right over '0' |
| TuringBuilders.AutomatonMapMachineDecides | src/turing.py:291-312 | on every binary string the machine halts, in q_accept iff the string contains a '1' (stopping on the first one) and in q_reject iff it is all '0'; tape unchanged; the map plays no part |
| TuringCodec.SplitKey | src/turing.py:202-206 | a key with a comma splits at its first comma into a pair whose first part has no comma and which re-serialises to the key; a key without a comma is skipped |
| TuringCodec.SplitKeyOfTransitionKey | src/turing.py:169-203 | a key `f"{s},{r}"` with a comma-free state splits back into (s, r) |
| TuringCodec.KeyOwner | src/turing.py:167-170 | the transition a serialised key is taken from is a transition of the machine that serialises to that key |
| TuringCodec.EncodeDelta | src/turing.py:167-170 | the "delta" keys are exactly the serialised transition keys of the machine |
| TuringCodec.DecodeDeltaUpdate | src/turing.py:201-207 | adding one entry with a comma-free state to a "delta" adds exactly its (state, symbol) pair to the loaded transitions |
| TuringCodec.DeltaRoundTrip | src/turing.py:167-207 | loading the serialised transitions gives back the transitions, when no state with a transition contains ',' |
| TuringCodec.EncodeTape | src/turing.py:185 | every tape position i appears as the key `str(i)` with its symbol, and every key is such a `str(i)` |
| TuringCodec.DecodeTape | src/turing.py:212 | decoding fails exactly when some key does not parse as an integer; otherwise position i holds the value of key `str(i)` and every key parses to a present position |
| TuringCodec.TapeRoundTrip | src/turing.py:185-212 | `{int(k): v}` of `{str(k): v}` is the original tape |
| TuringCodec.SnapshotRoundTrip | src/turing.py:182-217 | `from_snapshot(to_snapshot(tm))` rebuilds the same states, alphabets, blank, transitions, start, accept and reject sets, tape, head, state and halted flag, when no state with a transition contains ',' |
| TuringCodec.CommaInStateBreaksRoundTrip | src/turing.py:169-203 | a machine whose state "a,b" reads "c" does not survive serialisation: the key "a,b,c" splits as ("a", "b,c") |
| Text.ParseIntToString | src/turing.py:185-212 | `int(str(i)) == i` for every integer |
| Text.ParseInt | src/turing.py:212 | a string that parses denotes an integer whose `str` is that string |
| Text.IntToStringInjective | src/turing.py:185 | distinct positions get distinct keys |
| Text.SortedElems | src/turing.py:172-178 | `sorted(set)` lists each element of the set once, in strictly increasing string order |
| Text.SortedElemsAsSet | src/turing.py:209 | `set(sorted(s)) == s`, as `from_snapshot` rebuilds each set from its sorted list |
| RunAutomaton.DecideFromVector | src/run_automaton.py:7-40 | an element outside {0, 1}: reject with reason invalid_symbols and no readings; otherwise no reason, the decision equals the majority reading (happy iff ones > zeros, sad iff zeros > ones, reject iff tied, never neutral), and by_first is happy for a leading 1, sad for a leading 0, reject for the empty vector |
| RunAutomaton.AllOnesHappy | src/run_automaton.py:9-40 | a non-empty all-ones vector is happy by both readings |
| RunAutomaton.AllZerosSad | src/run_automaton.py:10-40 | a non-empty all-zeros vector is sad by both readings |
| RunAutomaton.EmptyRejects | src/run_automaton.py:22-34 | the empty vector is rejected by both readings (a 0–0 tie, no first symbol) |
| RunAutomaton.IgnoresAutomatonMap | src/run_automaton.py:36-40 | the result does not depend on the automaton map |
| RunAutomaton.OddLengthNeverRejected | src/run_automaton.py:26-34 | a valid vector of odd length cannot tie, so it is decided happy or sad |
| GenerateDigraphs.Decide | src/generate_digraphs.py:98-107 | happy iff ones > zeros, sad iff zeros > ones, neutral iff tied, never reject; values outside {0, 1} count as neither |
| GenerateDigraphs.BuildAutomaton | src/generate_digraphs.py:109-128 | the labels are the two decisions, each value is the label map's number for its label and so one of 0, 0.5, 1 and never −1, and the ones are at most the total, which is the vector length |
| GenerateDigraphs.GeneratedDelta | src/generate_digraphs.py:144-175 | loading the generated "delta" gives exactly the five transitions q_start on '0', '1', blank and q_check_sad, q_check_happy on the blank |
| GenerateDigraphs.GeneratedMachineLoads | src/generate_digraphs.py:136-175 | loading the generated specification gives the five-state machine with those transitions |
| GenerateDigraphs.GeneratedWritesBack | src/generate_digraphs.py:144-174 | every generated transition writes back the symbol it reads |
| GenerateDigraphs.GeneratedFirstStep | src/generate_digraphs.py:146-155 | from q_start, '0' moves right into q_check_sad and '1' into q_check_happy, tape unchanged |
| GenerateDigraphs.GeneratedOnZero | src/generate_digraphs.py:162-167 | the run on "0" halts after 2 steps in q_accept iff the neutral-to-sad decision was sad, else in q_reject |
| GenerateDigraphs.GeneratedOnOne | src/generate_digraphs.py:169-174 | the run on "1" halts after 2 steps in q_accept iff the neutral-to-happy decision was happy, else in q_reject |
| GenerateDigraphs.GeneratedOnEmpty | src/generate_digraphs.py:156-160 | the run on the empty tape rejects after one step |
| GenerateDigraphs.GeneratedStuckOnLongInput | src/generate_digraphs.py:144-174 | on two or more binary symbols the machine halts after 2 steps in a checking state, which is neither accepting nor rejecting |
| GenerateDigraphs.GeneratedMachineMatchesDecisions | src/generate_digraphs.py:98-174 | for the machine generated from two binary vectors, the run on "0" accepts iff the neutral-to-sad vector has more zeros than ones, the run on "1" accepts iff the neutral-to-happy vector has more ones than zeros, and otherwise each rejects |
| Labels.CountBinary | src/run_automaton.py:26-27 | in a 0/1 vector the zeros and ones together are all the elements |
| Utils.BoundingBox | src/utils.py:77-84 | no box for an empty landmark list (numpy raises); otherwise x_min ≤ x_max, y_min ≤ y_max, every landmark inside, and each side touched by some landmark |
| Utils.OpenFace68Table | src/utils.py:62-74 | mouth is 48..67 (20), eyes 36..47 (12), brows 17..26 (10), each increasing, pairwise disjoint, all below 68 |
| Utils.BandOf | src/utils.py:106-121 | mouth iff y ≥ y_min + 0.60h; eyes iff y_min + 0.33h ≤ y < y_min + 0.60h; brows otherwise |
| Utils.BandLandmarks | src/utils.py:112-121 | the loop's three lists are the band lists of all landmarks, each built in enumeration order |
| Utils.MapLandmarksToRegions | src/utils.py:97-123 | with a box, band by it; without one, band by the landmarks' own box; fails only without a box and without landmarks |
| Utils.BandIndicesMembership | src/utils.py:115-121 | an index is in a band list exactly when it is a landmark index whose y lies in that band |
| Utils.BandIndicesIncreasing | src/utils.py:115-121 | each band list is strictly increasing |
| Utils.RegionsPartition | src/utils.py:105-121 | every index 0..N−1 lands in exactly one of mouth, eyes, brows (the sizes add up to N), no other value appears, membership is decided by y alone, and each list is strictly increasing |
| Utils.RegionsIgnoreHorizontalBounds | src/utils.py:105-110 | the box's horizontal bounds never change the banding |
| Utils.RegionsDefaultBox | src/utils.py:103-104 | without a box, the landmarks' own box is used, and an empty landmark list fails |
| Digraph.FaceScale | src/utils.py:87-94 | the face scale is a non-negative norm of the box diagonal |
| Digraph.Difs | src/digraph.py:46-49 | one displacement per landmark, divided by scale + 1e-9 when normalising |
| Digraph.ChangedVector | src/digraph.py:51 | the change vector has one entry per displacement: 1 iff the displacement reaches the threshold, 0 iff it stays below |
| Digraph.ThresholdMeaning | src/digraph.py:37-51 | normalised with a threshold above 1: a landmark changes iff it moved at least threshold pixels; normalised with a threshold of at most 1: iff it moved at least that fraction of scale + 1e-9; not normalised: iff its raw displacement reaches the threshold |
| Digraph.ChangedIndicesSpec | src/digraph.py:52-58 | the node list is exactly the indices holding 1, in increasing order |
| Digraph.ConnectFrom | src/digraph.py:60-67 | the inner loop keeps every edge a sound close pair and adds both directions of every close pair it meets |
| Digraph.ConnectChanged | src/digraph.py:57-67 | after the nested loop, a → b is an edge iff a and b are distinct nodes closer than the limit in the target face, with that distance as weight |
| Digraph.BuildChangeGraph | src/digraph.py:52-67 | nodes are the changed indices in order, each with its displacement as 'change'; edges join distinct changed landmarks closer than the limit, weighted by their distance |
| Digraph.DigraphFromDifference | src/digraph.py:30-68 | normalising an empty neutral face fails (no box); differing landmark counts fail; otherwise the change vector is the thresholded displacements, the nodes and 'change' attributes are the changed landmarks, edges are symmetric with equal weights, have no self-loops, join only changed landmarks, and exist iff the distance is below 0.15·scale (normalised) or 50 |
| Digraph.ShiftedLineExample | tests/test_pipeline.py:6-13 | twenty collinear landmarks with the last five moved 30 pixels, threshold 5.0: exactly landmarks 15..19 change, whatever the face scale |
| Dfa.NewEmotionDfa | src/dfa.py:9-22 | the thresholds are as given; a region is present iff it was given or its legacy list is non-empty, and keeps its given list, a legacy list filling only a missing region |
| Dfa.DefaultEmotionDfa | src/dfa.py:9-22 | the classifier with given regions and the default thresholds 0.18, 0.20, 0.12 |
| Dfa.VectorStats | src/dfa.py:30-36 | for a plain vector, each region's size is its list length and its count the vector's sum over its indices (0 for an empty list) |
| Dfa.StatsOf | src/dfa.py:25-36 | only a plain vector that a region index does not fit fails (numpy raises on the index) |
| Dfa.Predict | src/dfa.py:24-83 | predicting fails only on a plain vector that a region index does not fit; a dictionary input always gets a label |
| Dfa.PropBounds | src/dfa.py:38-41 | a share with count between 0 and `sizes.get(r, 0) or 1` lies in [0, 1] |
| Dfa.TopKLargest | src/dfa.py:52-54 | the top list holds min(10, N) distinct indices, each with a displacement at least that of every index left out, and lower on a tie, as Python's stable descending sort orders them |
| Dfa.SortedIndicesSorted | src/dfa.py:54 | the sorted index list is a permutation of 0..N−1 in descending displacement order, ties by increasing index |
| Dfa.PredictHappyIff | src/dfa.py:45-58 | happy iff the proportion rule holds or, for a dictionary input with 'difs', the top-K rule holds (k > 0, at least 60 % of the k largest displacements in the mouth, mouth share ≥ 0.08) |
| Dfa.PredictNeutralIff | src/dfa.py:59-83 | neutral iff neither happy rule nor the sad rule holds and either no landmark of the three regions changed or the ones stay within max(50, half the length) |
| Dfa.SumAtCountsOnes | src/dfa.py:36 | on a 0/1 vector, `v[idxs].sum()` is the number of ones among the entries at the region's indices |
| Dfa.HappyRuleFirst | src/dfa.py:45-46 | whenever the proportion rule for happy holds, the answer is happy |
| Dfa.VectorHappyIff | src/dfa.py:45-58 | a plain vector never reaches the top-K rule: it is happy iff the proportion rule holds |
| Dfa.SadAfterHappyRules | src/dfa.py:45-60 | sad iff both happy rules fail and brows ≥ brows_thresh with mouth ≤ 0.1 |
| Dfa.RejectIsNoiseFloor | src/dfa.py:61-83 | reject iff no earlier rule applied, some region changed, and the ones exceed both 50 and half the length, taken from 'binary', the vector itself or the region totals |
| Dfa.NoChangeIsNeutral | src/dfa.py:45-63 | with positive mouth and brows thresholds, no change in any region is neutral |
| Dfa.RegionShareConstant | src/dfa.py:33-41 | a region whose every landmark reads x in the vector has share x |
| Dfa.TestDfa | tests/test_pipeline.py:20 | the test's classifier has mouth 15..19, eyes [0, 1], brows [10, 11] from legacy lists and the default thresholds |
| Dfa.TestVectorIsHappy | tests/test_pipeline.py:16-22 | the vector with ones at 15..19 is classified happy (by the first rule) |
| Pipeline.NewPipeline | src/pipeline.py:9-12 | the threshold is as given, and a missing classifier is `SimpleEmotionDFA()` |
| Pipeline.RegionCounts | src/pipeline.py:37-45 | every region has a count, the sum of the change vector over that region's indices |
| Pipeline.CountsAreOnes | src/pipeline.py:37-45 | on a 0/1 change vector, each region's count is the number of its landmarks marked changed |
| Pipeline.RegionSizes | src/pipeline.py:38-46 | each region's size is the length of its index list |
| Pipeline.CountsWithinSizes | src/pipeline.py:37-46 | with a 0/1 vector, each region's count is between 0 and its size |
| Pipeline.AnalyzeFaces | src/pipeline.py:26-56 | regions from the neutral face and its box; displacements normalised by the neutral face's scale; the change vector against the threshold; diff_nodes the changed indices, equal to the graph's nodes; the graph is the one of `digraph_from_difference`: each changed landmark's 'change' is its displacement, and a → b is an edge iff a ≠ b are both changed and closer than 0.15·scale in the target face, weighted by that distance; counts and sizes per region, counts ≤ sizes; the label is the default classifier's answer on counts, sizes, displacements and vector |
| Pipeline.AnalyzePair | src/pipeline.py:14-56 | no face: reject/no_face; differing counts: reject/landmark_count_mismatch; two empty lists fail, and nothing else does; two present, equally long, non-empty lists are always analysed, with the analysis above, and with a threshold above 1 a landmark is changed iff it moved at least threshold pixels |
| Pipeline.PixelThreshold | src/pipeline.py:31 | with a threshold above 1, a landmark is changed iff it moved at least that many pixels |

## Left out

- Image loading, the landmark extractor (MediaPipe), plotting, JSON files and the command-line entry points are not part of this model. The extractor's answers are inputs of `Pipeline.AnalyzePair`.
- `build_face_digraph` (scikit-learn nearest neighbours) is left out. `analyze_pair` builds the two face graphs and never uses them; the one way they matter, raising on an empty landmark list, is modelled as the `NoLandmarks` failure of `Pipeline.AnalyzePair`.
- `to_graphviz` is left out: it only renders a display string. `to_dict` builds the same dictionary as `spec` and is modelled by `Turing.TuringMachine.Spec`.
- **Square roots and floating point.** The Euclidean norm is a parameter (`Digraph.Norm`), coordinates are exact reals, and `1e-9` is the exact rational. Rounding is not modelled.
- **Integer parsing.** `Text.ParseInt` accepts only the canonical decimal forms that `str(int)` writes. Python's `int` also accepts spaces, '+', '_' and leading zeros. Those keys never come from `to_snapshot`; the model rejects them as unparsable.
- **Key collisions.** When two transitions serialise to the same key, which needs a state name containing ',', `TuringCodec.EncodeDelta` keeps the transition whose state is the shortest such prefix of the key. Python keeps the one inserted last. All round-trip lemmas assume comma-free states, and `TuringCodec.CommaInStateBreaksRoundTrip` shows why.
- **Snapshot defaults.** `from_snapshot`'s defaults for missing dictionary entries (`get("Q", [])`, blank "_", ...) are not modelled: a snapshot always holds every entry. A snapshot's "tape" entry is taken as a string-keyed dictionary.
- **Classifier input kinds.** A dictionary without 'counts' is not modelled. Python sends it down the vector branch, where `v[idxs]` on a dictionary raises unless every region list is empty. The model covers plain vectors (`Dfa.DfaInput.Vector`) and dictionaries with 'counts' (`Dfa.DfaInput.Record`).
- **Region keys.** Only the three keys mouth, eyes and brows are modelled. Extra keys in a regions dictionary are not.
- **Aliasing.** `SimpleEmotionDFA.__init__` mutates the caller's `regions` dictionary in place through `setdefault`. The model builds a new map, so aliasing with the caller's dictionary is not modelled.
- **numpy behaviour.** numpy broadcasting and shape errors other than differing landmark counts are left out. Index wrap-around for negative indices is modelled in `Dfa.SumAt`.
- **Unused classifier.** `FacialStatePipeline.dfa` is stored by `Pipeline.NewPipeline` and unused by `analyze_pair`, which builds its own classifier from the regions.
- **Weaker test assertion.** The Python classifier test only asserts "happy or neutral". `Dfa.TestVectorIsHappy` proves the stronger fact that the answer is happy.
- **Empty faces.** For two empty landmark lists, `analyze_pair` first fails in `build_face_digraph` (asking for zero neighbours), before `bbox_from_landmarks` would. The model records only that the call fails (`NoLandmarks`). The shape failure of a differing landmark count never reaches `digraph_from_difference`, because `analyze_pair` rejects it first.
- **Default arguments.** `run(max_steps=1000)`, `tape_str(window=20)` and `digraph_from_difference(threshold=0.05, normalize=True)` have no default forms in the model: every caller passes each argument. `FacialStatePipeline`'s default threshold 2.0 is `Pipeline.DefaultThreshold`.
