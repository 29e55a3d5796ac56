# Salience and diagnosticity models in Dafny

This project models the core of SalienceDiagnosticityModels. That program
simulates infants' categorisation experiments. Each simulated subject is
a small back-propagation network (an auto-encoder with a bias unit, a
sigmoid hidden layer and a linear output layer). It is trained on a
schedule of familiarisation stimuli made of a label part, a head feature
and a tail feature. Its "looking time" at test stimuli is the number of
presentations needed before its output error falls under a threshold.

The model follows the three core files:

- `network.dfy` (module `BackPropNetworks`) is `src/BackPropNetworks.py`.
  - The network is a class `BackPropNetwork`. Its layers, weights, inertia
    queue and error are fields that `Propagate`, `Backpropagate` and `Run`
    update in place.
  - Every step is specified by a pure function of the old state:
    `Activations`, `Gradient`, `Deltas`, `UpdatedWeights`, `NewWeights`
    and `PushFront`.
- `gates.dfy` (module `Gates`) holds the logistic and exponential-decay
  functions of the same file. The exponential itself is a parameter, `Exp`.
  It is known by two facts the real exponential has: it is positive, and
  exp(−y)·(1 + y) ≤ 1 for y ≥ 0.
- `momentum.dfy` (module `MomentumPolicy`) holds the learning-rate column
  and the `init_momentum` policy. It keeps a constant momentum as it is.
  It measures the memory of a decay function and falls back to half the
  smallest learning rate when the decay function weighs too much.
- `subjects.dfy` (module `Subjects`) is `src/Subjects.py`.
  - A subject is a class whose state is the history of stimuli its network
    has been run on.
  - The network is seen through `NetView`: the error row, the hidden layer
    and the norm the schedulers read after each run, as functions of that
    history.
  - The familiarisation schedule (`FamTraining`, `PresentBlock`) and the
    contrast test (`Trial`, `ContrastTest`) are methods with loops. They
    are proved against recursive specifications of what they record.
- `experiments.dfy` (module `Experiments`) is `src/Experiments.py`. It holds:
  - stimulus generation with a given overlap (`GenerateStims`, on arrays);
  - rejection sampling of a category (`GenerateCategory`);
  - the layout of the familiarisation stimuli;
  - the decoding of a subject number into a condition and a contrast set;
  - the two CSV tables the program writes (`OutputContrastData`,
    `OutputFamErrors`).
- `linalg.dfy` (rows and matrices as sequences of reals) and `text.dfy`
  (`str` of a natural number, `','.join` and `split`, with their
  round-trip lemmas) are the vocabulary the three modules share.
  `wrappers.dfy` holds an `Option` and a `Result`.

Random draws are parameters of the operations that use them:

- `np.random.ranf` weight draws are the `draws` matrices;
- `np.random.choice` indices are `iDiff` and `iStim1`;
- `np.random.uniform` noise is one row per sampling step;
- `np.random.shuffle` results are the `perms` permutations.

## Model

| member | source | states |
|---|---|---|
| Gates.Sigmf | src/BackPropNetworks.py:9-10 | the logistic function lies strictly between 0 and 1 |
| Gates.ExpDecay | src/BackPropNetworks.py:12-13 | the default momentum weight 0.25·e^(−n) is positive |
| Gates.ExpDecayBound | src/BackPropNetworks.py:12-13 | the n-th default weight is at most 0.25/(1+n), so it falls towards 0 |
| BackPropNetworks.DefaultMomentum | src/BackPropNetworks.py:64 | the default momentum `exp_decay` is a decay whose weights reach the 0.001 threshold, so the `init_momentum` loop ends and a network can be built with it |
| MomentumPolicy.RateColumn | src/BackPropNetworks.py:84-89 | the first matrix's rate column has one entry per input unit plus the bias: the salient rate on the first n_salient rows, the non-salient rate on the other input rows, the global rate on the bias row |
| MomentumPolicy.MinRate | src/BackPropNetworks.py:124 | the smallest rate in use: at most the global rate and every column entry, and equal to one of them |
| MomentumPolicy.MemoryLengthUnique | src/BackPropNetworks.py:114-119 | there is only one memory length: the first index from 1 on where the decay weight is at most 0.001 |
| MomentumPolicy.InitMomentum | src/BackPropNetworks.py:104-131 | a float momentum is kept with memory 1. A decay function keeps its memory length when the retained total weight is below the smallest rate, and is otherwise replaced by half that rate with memory 1. Whenever the smallest rate is positive, the retained weight ends below it |
| BackPropNetworks.InitWeightsMatrix | src/BackPropNetworks.py:93-102 | uniform draws in [0, 1) give an (m+1)×n matrix (m×n without bias) with every entry in [−0.25, 0.25) |
| BackPropNetworks.Gate | src/BackPropNetworks.py:146-148 | a gated activation lies in (0, 1) |
| BackPropNetworks.Forward | src/BackPropNetworks.py:133-148 | unit c of the next layer is the gate of the activations' dot product with weight column c plus the bias weight of column c |
| BackPropNetworks.BiasedEntries | src/BackPropNetworks.py:144-145 | appending the bias unit 1 and multiplying by the weights equals the dot product plus the bias row |
| BackPropNetworks.DotWithBias | src/BackPropNetworks.py:144-145 | the same identity for one weight column |
| BackPropNetworks.GradientOutput | src/BackPropNetworks.py:150-166 | the leading goal entries beyond the output size are dropped. The error is output minus the rest of the goal, and the gradient is 1.1 times the error |
| BackPropNetworks.GradientBack | src/BackPropNetworks.py:168-181 | entry j is the upper gradient's dot product with weight row j, times a_j(1−a_j)+0.1 |
| BackPropNetworks.GradientBackIgnoresBias | src/BackPropNetworks.py:177 | the bias row of the weights plays no part in the back-propagated gradient |
| BackPropNetworks.WeightDelta | src/BackPropNetworks.py:183-191 | the delta is the outer product of (activations, 1) and the upper gradient: entry (r, c) is a_r·g_c and the bias row is the gradient |
| BackPropNetworks.Descent | src/BackPropNetworks.py:195-200 | each entry loses delta times its rate: the row's own rate for the first matrix, the global rate otherwise |
| BackPropNetworks.MomentumAccumEntry | src/BackPropNetworks.py:204-205 | the accumulated entry is the base entry plus the sum over the queue of f(t) times the t-th snapshot's entry |
| BackPropNetworks.UpdatedWeightsEntry | src/BackPropNetworks.py:193-206 | per entry: descent plus the constant times the most recent delta, or descent plus the decay-weighted sum of all stored deltas |
| BackPropNetworks.FirstRunNoMomentum | src/BackPropNetworks.py:80-81 | with the initial all-zero inertia, momentum adds nothing: the first update is plain descent |
| BackPropNetworks.ZeroSnapshot | src/BackPropNetworks.py:80-81 | the initial inertia snapshot is one zero matrix per weight matrix, of the same shape |
| BackPropNetworks.Activation | src/BackPropNetworks.py:208-218 | layer l has the layer's size, and every hidden activation lies in (0, 1) |
| BackPropNetworks.Activations | src/BackPropNetworks.py:212-218 | the input layer holds the stimulus and every layer holds its activation |
| BackPropNetworks.ActivationStep | src/BackPropNetworks.py:215-216 | forwarding layer l−1 gives layer l, gated for hidden layers and linear for the output |
| BackPropNetworks.ActivationsFromLayers | src/BackPropNetworks.py:212-218 | layers computed one at a time form the activation list |
| BackPropNetworks.OutputIsLinear | src/BackPropNetworks.py:218 | the output layer is the ungated weighted sum of the last hidden layer plus bias |
| BackPropNetworks.GradientStep | src/BackPropNetworks.py:228-229 | each inner gradient is `gradient_back` of the gradient above it |
| BackPropNetworks.DeltaOfGradient | src/BackPropNetworks.py:233 | the delta of boundary i is `weight_delta` of the gradient of layer i+1 |
| BackPropNetworks.Deltas | src/BackPropNetworks.py:231-234 | one delta per weight matrix, shaped like it |
| BackPropNetworks.NewWeights | src/BackPropNetworks.py:231-235 | one updated matrix per boundary, of the same shape as before |
| BackPropNetworks.BoundaryUpdates | src/BackPropNetworks.py:231-235 | the deltas and updates computed from the stored gradients are exactly `Deltas` and `NewWeights` |
| BackPropNetworks.PushFront | src/BackPropNetworks.py:237-239 | the new snapshot goes in front, older ones follow in order, and the oldest is dropped once the queue exceeds its memory |
| BackPropNetworks.PushFrontFits | src/BackPropNetworks.py:237-239 | the inertia queue keeps one snapshot per weight shape |
| BackPropNetworks.OutputLayerAsWritten | src/BackPropNetworks.py:215-218 | as written, the output layer index is bound only when there are at least 3 layers, and is then the last layer |
| BackPropNetworks.BackPropNetwork.constructor | src/BackPropNetworks.py:64-91 | zero layers, weights from the draws, one all-zero inertia snapshot, the rate column, the momentum chosen by `init_momentum`, no error |
| BackPropNetworks.BackPropNetwork.Propagate | src/BackPropNetworks.py:208-218 | every layer is set to its activation for the stimulus, for any network of at least 2 layers. Weights, inertia and error are unchanged |
| BackPropNetworks.BackPropNetwork.UpdateWeights | src/BackPropNetworks.py:193-206 | the new matrix of boundary i is `UpdatedWeights` of the current weights, inertia and rates |
| BackPropNetworks.BackPropNetwork.Gradients | src/BackPropNetworks.py:224-229 | the gradients of every non-input layer, from the output down |
| BackPropNetworks.BackPropNetwork.WeightDeltas | src/BackPropNetworks.py:231-234 | delta i is `weight_delta` of gradient i+1 and layer i |
| BackPropNetworks.BackPropNetwork.UpdateAll | src/BackPropNetworks.py:231-235 | update i is `update_weights` of boundary i with delta i |
| BackPropNetworks.BackPropNetwork.Backpropagate | src/BackPropNetworks.py:220-241 | error set to output minus goal. Weights become `NewWeights` and the deltas go in front of the capped inertia queue. Gradients are returned iff `r` |
| BackPropNetworks.BackPropNetwork.Run | src/BackPropNetworks.py:243-254 | propagate, then backpropagate towards the goal, or towards the stimulus when no goal is given |
| Subjects.TrialCalls | src/Subjects.py:107-113 | a trial makes at most pres_time presentations, and at least one when pres_time > 0 |
| Subjects.TrialCallsStop | src/Subjects.py:109-113 | every presentation before the last leaves an error above the threshold. A trial that ends early ends on an error at or below it |
| Subjects.LookingTimeSpec | src/Subjects.py:107-114 | the looking time is at most pres_time. It is 0 iff pres_time is 0 or the threshold is at least the initial error 1. It stops at the first presentation that brings the error to the threshold |
| Subjects.RecordedSteps | src/Subjects.py:83 | the recorded steps lie below the step count |
| Subjects.RecordedStepsSpec | src/Subjects.py:91 | a step is recorded iff 1+step is a multiple of rec_epoch, or it is the first or the last step. Records come in increasing step order |
| Subjects.EveryStepRecorded | src/Experiments.py:181-182 | with rec_epoch 1, as `run_subject` passes it, every step is recorded |
| Subjects.Block | src/Subjects.py:79-82 | a block presents 2·n stimuli |
| Subjects.StimTypes | src/Subjects.py:85 | one stim-type key per presentation of a block |
| Subjects.Schedule | src/Subjects.py:74-82 | n_steps repetitions of the block |
| Subjects.GatherSnoc | src/Subjects.py:82-90 | on a recorded step, one more run stores its hidden layer under its key and appends its three error norms; otherwise nothing changes |
| Subjects.RecordsStep | src/Subjects.py:91-96 | a recorded step appends (1+step, the three mean errors) and (1+step, the block's hidden map) to the records; other steps append nothing |
| Subjects.ErrorRecordsAt | src/Subjects.py:74-96 | the j-th error record is (1 + the j-th recorded step, the mean norms of the block presented at that step) |
| Subjects.RepRecordsAt | src/Subjects.py:91-93 | the j-th hidden-representation record is (1 + the j-th recorded step, the map of hidden layers from that step's block) |
| Subjects.StimTypesDistinct | src/Subjects.py:85-86 | the keys within a block are pairwise distinct, so no hidden layer overwrites another |
| Subjects.HiddenRepsKeys | src/Subjects.py:85-86 | the block map's keys are the keys of the presentations made |
| Subjects.HiddenRepsAt | src/Subjects.py:86 | with distinct keys, the map holds under each key the hidden layer right after that presentation |
| Subjects.StimTypesCover | src/Subjects.py:71-73 | whatever the shuffles, the keys of a block are exactly "c"+"i" for category c < 2 and stimulus i < n |
| Subjects.BlockHiddenReps | src/Subjects.py:75-86 | a recorded block map has exactly 2·n keys, all the stim types, each holding the hidden layer after its presentation |
| Subjects.BlockAt | src/Subjects.py:79-82 | presentation 2·stim+cat is stimulus perms[cat][stim] of category cat, with key str(cat)+str(perms[cat][stim]) |
| Subjects.Subject.constructor | src/Subjects.py:45-54 | a new subject's network has been run on nothing |
| Subjects.Subject.Run | src/BackPropNetworks.py:243-254 | a run adds its stimulus to the history |
| Subjects.Subject.Trial | src/Subjects.py:107-114 | the looking time is `LookingTime` of the history, and the history grows by that many presentations of the stimulus |
| Subjects.Subject.ContrastTest | src/Subjects.py:99-115 | the four trials run in the order Head/Old, Head/New, Tail/Old, Tail/New, each on the network the previous one left |
| Subjects.Subject.PresentBlock | src/Subjects.py:79-90 | the history grows by the block, and the hidden map and three error lists are `Gather` of the block |
| Subjects.Subject.FamTraining | src/Subjects.py:56-97 | the history grows by n_steps blocks, and the error and hidden-representation records are `ErrorRecords` and `RepRecords` |
| Experiments.Trunc | src/Experiments.py:131 | `int` of a non-negative float is its integer part |
| Experiments.NDiffSpec | src/Experiments.py:131-134 | the count of differing units is even, between 0 and size, and equals 2·⌊(size − ⌊ratio·size⌋)/2⌋ |
| Experiments.Without | src/Experiments.py:143 | the indices of i_diff not in i_stim1 |
| Experiments.HalfCards | src/Experiments.py:139-143 | i_stim1 lies within i_diff, and each half holds n_diff/2 positions |
| Experiments.ZeroAt | src/Experiments.py:145-146 | the listed positions are set to 0 and the others keep 1 |
| Experiments.GenerateStims | src/Experiments.py:125-147 | stim1 is 0 exactly on i_stim1 and stim2 exactly on i_diff minus i_stim1. Both have n_diff/2 zeros, on disjoint sets whose union is i_diff. The two stimuli agree exactly outside i_diff |
| Experiments.Candidate | src/Experiments.py:158-159 | a candidate has the prototype's size, and each entry is the prototype's entry plus that step's noise |
| Experiments.Grow | src/Experiments.py:154-166 | the exemplar list starts with the prototype and holds at most n more |
| Experiments.GrowSpec | src/Experiments.py:160-166 | kept exemplars are pairwise at least min_dist apart, and each is a candidate drawn at some step |
| Experiments.GrowStable | src/Experiments.py:155 | once the quota is met, further steps change nothing |
| Experiments.IsFar | src/Experiments.py:160-163 | the candidate is kept iff no exemplar lies closer than min_dist |
| Experiments.CategoryAsWrittenSpec | src/Experiments.py:149-169 | as written, a successful category holds n exemplars drawn within the budget, far from the prototype and from each other |
| Experiments.GenerateCategory | src/Experiments.py:149-169 | the sampler's outcome is `IntendedCategory` |
| Experiments.IntendedCategory | src/Experiments.py:149-169 | fails iff no candidate can be drawn or the quota is still unmet after the budget. On success, n exemplars that with the prototype are pairwise separated |
| Experiments.CategoryDiffersOnlyAtLastStep | src/Experiments.py:155-168 | the code as written and the intended outcome differ exactly when the last step of the budget meets the quota |
| Experiments.LastDrawFillsQuota | src/Experiments.py:167-168 | a concrete draw sequence whose last step meets the quota: as written it raises, while the intended outcome succeeds |
| Experiments.LabelStims | src/Experiments.py:80-83 | two label slots per condition, with no label for condition 0 |
| Experiments.BuildFamStims | src/Experiments.py:85-95 | 2 conditions × 2 categories × 6 stimuli, each the `FamStim` of its indices |
| Experiments.FamStimParts | src/Experiments.py:91-93 | a stimulus is the label part (zeros without label), then head i of category (i+cat) mod 2, then tail i of its own category |
| Experiments.HeadsAreUninformative | src/Experiments.py:92 | each category shows its own head on exactly the even stimuli, 3 of 6, and the two categories never share a head category |
| Experiments.Binary | src/Experiments.py:176 | `format(v, '0wb')` is w binary digits |
| Experiments.ParseBinaryOf | src/Experiments.py:176 | the digits read back as v |
| Experiments.SubjectType | src/Experiments.py:176 | the subject type is two digits that read as subject mod 4 |
| Experiments.SubjectTypeBits | src/Experiments.py:181-184 | condition is bit 1 and contrast set bit 0 of subject mod 4 |
| Experiments.Counterbalanced | src/Experiments.py:173-176 | any four consecutive subjects cover all four (condition, contrast set) pairs |
| Experiments.SubjectWithPair | src/Experiments.py:173-176 | every pair is met by a subject within any four consecutive ones |
| Experiments.CounterbalancedOnce | src/Experiments.py:173-176 | within four consecutive subjects, no pair repeats |
| Experiments.ConditionName | src/Experiments.py:249 | the condition column is "label" iff subject mod 4 is at least 2 |
| Experiments.ConditionNamePlain | src/Experiments.py:242 | condition names hold no comma or line break |
| Experiments.ContrastFields | src/Experiments.py:328-333 | five fields with no comma or line break |
| Experiments.ContrastHeaderSplits | src/Experiments.py:314-318 | the contrast header splits back into its five column names |
| Experiments.FileLines | src/Experiments.py:336-339 | header and rows joined by line breaks, plus the final break, split back into the lines and an empty last piece |
| Experiments.ContrastLines | src/Experiments.py:322-334 | four rows per subject |
| Experiments.ContrastLinesPlain | src/Experiments.py:322-334 | no contrast row holds a line break |
| Experiments.ContrastLinesAt | src/Experiments.py:328-334 | row 4·s+k splits into subject s's five fields for trial k |
| Experiments.OutputContrastData | src/Experiments.py:298-339 | the file text splits into the header, then four rows per subject in order, then an empty piece. Its first line splits into the column names |
| Experiments.FamErrorRowFields | src/Experiments.py:248-253 | as written, the list of three errors adds two commas, so a row splits into six fields under a four-column header |
| Experiments.FamErrorRow | src/Experiments.py:248-253 | corrected: a row splits into subject, condition, block and the three mean errors, one field per column, with no line break |
| Experiments.ErrorRow | src/Experiments.py:248-253 | a row in either layout holds no line break, and its field count matches the header's column count only in the corrected layout |
| Experiments.ErrorListJoin | src/Experiments.py:251 | `str` of the error list is its three pieces joined by commas |
| Experiments.FamErrorRowJoin | src/Experiments.py:253 | a row as written is its first three fields and the list's pieces joined by commas |
| Experiments.FamErrorHeaderSplits | src/Experiments.py:236-239 | in either layout, the error header splits back into its column names: `subject,condition,block,error` as written, six columns when corrected |
| Experiments.SubjectErrorRows | src/Experiments.py:246-253 | one row per recorded block of a subject, in block order, in the chosen layout |
| Experiments.FamErrorRowsCount | src/Experiments.py:243-253 | exactly one row per (subject, block), none holding a line break, in either layout |
| Experiments.ErrorFileSplits | src/Experiments.py:255-258 | the joined text plus the final break splits into the header, the rows and an empty piece, and its first line splits into the column names |
| Experiments.OutputFamErrors | src/Experiments.py:234-258 | with layout `AsWritten`, the text the source writes: the header `subject,condition,block,error`, then one row per (subject, block) in order holding `str` of the error list, then an empty piece. With layout `PerGroup`, the corrected file with one column per error group. Either way there are 2 + blocks pieces and the first line splits into the layout's columns |
| Text.NatToString | src/Experiments.py:248 | `str` of a natural number is a non-empty digit string without a leading zero |
| Text.ParseNatToString | src/Experiments.py:250 | the digit string reads back as the number |
| Text.NatToStringInjective | src/Experiments.py:248 | different numbers give different strings |
| Text.SplitJoin | src/Experiments.py:253 | fields free of the separator split back out of their join |

## Left out

- Floating point: numbers are real numbers. `np.exp` and `np.linalg.norm` are parameters (`Exp`, `NetView.norm`, `dist`). The exponential is known only to be positive and below 1/(1 + y) at −y, so the exact memory length of `exp_decay` (6 with the real exponential) is not derived. `str` of a float is a parameter `repr`, assumed free of commas and line breaks.
- Randomness: the draws of `ranf`, `choice`, `uniform` and `shuffle` are parameters. The constraints on them are the ones the code relies on: draws in [0, 1), distinct in-range indices of the right counts, rows of the prototype's size, permutations. The noise range [−0.5, 0.5) is not constrained, because no property here depends on it.
- `run_experiment` (multiprocessing pool), the file writes and the warning printed by `init_momentum` are left out. The output methods return the text written.
- The hidden-representation half of `output_fam_data` (src/Experiments.py:260-296) is not part of this model. As written it builds one row per block from the last stimulus of the inner loop.
- `Experiment.__init__` as a whole is left out: it unpacks three modality sizes and draws `h_new` with the tail size. Only its familiarisation layout (`LabelStims`, `BuildFamStims`) is modelled. The contrast stimulus literals of lines 100-123 are inputs of `ContrastTest`.
- `Subject.__init__` is left out: it passes five arguments to a four-parameter constructor. A subject is built on a `NetView`. `n_label` and `n_label + n_salient` are the parameters `iLabel` and `iSalient`.
- `run_subject` is modelled only through the decoding of its subject type (`SubjectType`, `SubjectTypeBits`) and its rec_epoch of 1 (`EveryStepRecorded`).
- scripts/counterbalancing.py and src/main.py are not part of this model.
- Subjects.Subject: the network is observed through `NetView`, a function of the run history. It is not the `BackPropNetwork` object itself, so no lemma ties a subject's readings to the network's weights.
- Subjects.Subject.ContrastTest: `copy.deepcopy(self.net)` at src/Subjects.py:106 makes a copy that is never used. The trials therefore share and train one network, as modelled.
- BackPropNetworks.BackPropNetwork.Backpropagate: the single loop that computes each delta and updates each matrix is modelled as two loops (`WeightDeltas`, then `UpdateAll`). This gives the same result, since update i reads only weights[i], the inertia and delta i.
- BackPropNetworks.BackPropNetwork.Run: requires the stimulus to be as wide as the input layer; another width makes the `hstack`/`dot` of src/BackPropNetworks.py:144-145 raise, and that error path is not modelled. It also requires the goal to be at least as long as the output layer. Shorter goals either raise or broadcast through numpy (a one-entry goal is spread over the whole output); neither is modelled.
- BackPropNetworks.BackPropNetwork.Propagate: requires the stimulus to be as wide as the input layer, for the same reason as `Run`.
- BackPropNetworks.BackPropNetwork.constructor: requires n_salient to be at most the input size; a larger one makes `np.full` get a negative size and raise ValueError (src/BackPropNetworks.py:87-88), and that error path is not modelled. It also requires at least 2 layers: the source builds a 1-layer network without error (no weights) but cannot propagate through it, so such a network is not modelled.
- MomentumPolicy.RateColumn: requires n_salient to be at most the input size, as the constructor does.
- MomentumPolicy.InitMomentum: a decay function that never falls to 0.001 makes the source loop forever, so that is required. The `isinstance(momentum, float)` test is modelled by the `Constant`/`Decay` constructors: an `int` momentum, which the source would call as a function, is not modelled.
- BackPropNetworks.Gate: the contract states the range of the gated case only; the linear case is the identity by definition.
- BackPropNetworks.UpdatedWeights and BackPropNetworks.Gradient state only shapes in their own contracts; their entries are stated by `UpdatedWeightsEntry` and `GradientStep`.
- Experiments.GenerateStims: requires an overlap ratio in [0, 1], the range its documentation gives. `np.setdiff1d` returns its result sorted, while `Without` keeps the order of i_diff; the zeroed positions are the same.
- Experiments.FamErrorRow: the three error column names of the corrected header (`label_error`, `salient_error`, `non_salient_error`) are chosen by the model; the source names only one `error` column. `OutputFamErrors` with layout `AsWritten` gives the text the source writes.
- Experiments.GenerateCategory: a `cat_method` other than "continuous" leaves `new_exemplar` unbound when n_exemplars > 0, and Python raises; this is modelled as `Failure(NoCandidate)`.
- Subjects.Subject.FamTraining: requires rec_epoch > 0 (Python raises on 0) and non-empty categories.

## Findings

| source | as written | input that shows it | evidently intended | confidence | as-written member | corrected member |
|---|---|---|---|---|---|---|
| src/BackPropNetworks.py:215-218 | `layer += 1` after the hidden-layer loop uses the loop variable, which is never bound when the network has only input and output layers | a network with 2 layers: `range(1, 1)` is empty and line 217 raises | the output layer is the last layer for any network of at least 2 layers | not executed | BackPropNetworks.OutputLayerAsWritten | BackPropNetworks.BackPropNetwork.Propagate |
| src/Experiments.py:248-253 | `str` of the list of three errors holds two commas, so each row has six comma-separated fields under the four-column header of lines 236-239 | any subject and block: the row "0,no_label,1,[a, b, c]" | one column per error group, in the header and in every row | not executed | Experiments.FamErrorRowFields | Experiments.FamErrorRow |
| src/Experiments.py:167-168 | the sampler raises whenever the budget of 100000 steps ran out, even when the last step met the quota | prototype [0.0], quota 1, min_dist 1, where only the draw of step 100000 is far enough (`LastDrawFillsQuota`) | fail only when the quota is unmet | not executed | Experiments.LastDrawFillsQuota | Experiments.GenerateCategory |
