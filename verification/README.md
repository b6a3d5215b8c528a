# Clustered federated learning: parameter-map bookkeeping

This project is a Dafny model of the weight bookkeeping in `fl_devices.py` of a clustered
federated-learning system. Client devices train a shared model architecture on private data. A
server groups the clients into cohorts and averages each cohort's weight updates into that
cohort's weights. The model covers the following:

- **Dict utilities.** `copy`, `get_dW`, `reduce_add_average`, `flatten` and `pairwise_angles`
  work on parameter dicts, each of which maps parameter names to tensors.
- **The client.** Its weights are `W`. `W_old` holds the weights from before the last local
  training. `dW` is the accumulated update. `W_original` is the rollback point. The learning rate
  decays by 0.99 before every training.
- **The server.** It runs cohort-wise aggregation, computes the similarity matrix over the
  clients' updates, averages updates, and appends snapshots to its model cache.

A parameter dict is a `ParamMap` object. It has a fixed key order (`names`) and a map from
names to tensors that methods replace in place. Object identity stands for Python's reference
semantics. So `self.W_original = self.W` makes the rollback point the very dict it is supposed to
protect, and this aliasing is modelled. A tensor is a sequence of exact reals, its shape collapsed
to its number of elements.

Every walk over a dict has a value-level specification in `ParamSpec`: `CopyKeys`,
`AccumulateKeys`, `AddMeanKeys`, `AddMeanFrom`, `SumKeys`, `DivideKeys` and `AverageDw`. Like
the Python loops, each one stops at the first key that raises. The keys visited before that
key stay updated, and the specification records this partial update. Each in-place method is
proved equal to its specification. Lemmas then state what the specifications mean: which keys
change and how, when the walk raises and with which error, and the round-trip and invariant
facts the system relies on.

A Python exception is a `Fault`: `KeyError`, a size mismatch, `IndexError`, `AttributeError`,
`TypeError`, or a training failure. Operations that return nothing yield a `Status`; operations
that return a value yield a `Result`.

## Surprises in the code

The model keeps each of these as the code has it.

- **`reset` does not roll back.** The names `W_original` and `reset` show that the code means to
  restore the weights from the last synchronization. But `synchronize_with_server` stores `W`
  itself as `W_original` (fl_devices.py:119), not a copy. `reset` therefore copies `W` onto
  itself and keeps the trained weights. Before any synchronization, `W_original` does not exist
  and `reset` raises `AttributeError`.
- **`aggregate_weight_updates` never averages.** It passes `target=` to `reduce_add_average`,
  whose parameter is `targets` (fl_devices.py:55, 147), so every call raises `TypeError`.
- **`dW` is never zeroed between rounds.** The name `compute_weight_update` suggests the update
  of one round. But `get_dW` adds into `dW` (fl_devices.py:52), and nothing else resets it, so
  `dW` holds the sum of every round's difference since the client was built.

## Model

| member | source | states |
|---|---|---|
| Tensors.MeanOfOne | fl_devices.py:58-60 | the mean of a stack holding one tensor is that tensor |
| Tensors.MeanOfCopies | fl_devices.py:58-60 | the mean of n >= 1 copies of a tensor is that tensor |
| Tensors.MeanOfCancellingList | fl_devices.py:58-60 | when every element sums to zero over the stack, the mean is the zero tensor |
| Tensors.DotSymmetric | fl_devices.py:74 | torch.sum(s1 * s2) does not depend on the order of the operands, broadcasting included |
| Tensors.SqNormNonNegative | fl_devices.py:74-75 | a vector's product with itself sums to a non-negative value |
| Tensors.DotNegated | fl_devices.py:74 | a vector's product with its negation sums to minus its squared norm |
| ParamSpec.CopyKeys | fl_devices.py:45-47 | copy, from the key at position 0 on, never adds or removes a key of the target |
| ParamSpec.CopyKeysEffect | fl_devices.py:45-47 | copy, raise or not: the keys before the first one the source lacks hold the source's tensors; every other entry is unchanged; the walk raises KeyError for that first missing key |
| ParamSpec.CopySucceedsIff | fl_devices.py:45-47 | copy succeeds exactly when the source has every key of the target; then each target key holds the source's tensor, and keys found only in the source are ignored |
| ParamSpec.SelfCopyIsIdentity | fl_devices.py:133-134 | copying a dict onto itself succeeds and changes nothing |
| ParamSpec.CopyBetweenAlikeMaps | fl_devices.py:122 | copying between dicts with the same keys succeeds and makes the target equal to the source |
| ParamSpec.AccumulateKeys | fl_devices.py:50-52 | get_dW, from the key at position 0 on, never adds or removes a key of the target |
| ParamSpec.AccumulateKeysEffect | fl_devices.py:50-52 | get_dW, raise or not: the keys before the first one it cannot update hold old + (minuend - subtrahend); the others are unchanged; it raises KeyError or a size mismatch for that first key |
| ParamSpec.AccumulateKeysUpdates | fl_devices.py:50-52 | get_dW's status, and the accumulated value of every key it updates |
| ParamSpec.AccumulateKeysUntouched | fl_devices.py:50-52 | get_dW leaves every entry past its first failing key as it was |
| ParamSpec.AccumulateSucceedsIff | fl_devices.py:50-52 | get_dW succeeds exactly when every key can be updated; every key then holds old + (minuend - subtrahend): it accumulates, it does not overwrite |
| ParamSpec.AccumulateZeroDifference | fl_devices.py:50-52 | with minuend equal to subtrahend, get_dW leaves the target as it was |
| ParamSpec.ReplaySumsDeltas | fl_devices.py:130 | after any number of get_dW(dW, W, W_old) rounds, dW holds, element by element, its start value plus the sum of every round's after - before |
| ParamSpec.MeanAt | fl_devices.py:58-60 | the mean of the stacked tensors for a key raises only KeyError for that key, the error of an empty stack, or a size mismatch for that key |
| ParamSpec.MeanAtFits | fl_devices.py:58-60 | the mean exists exactly when there is a source and every source has a tensor for the key, all of one size; the mean has that size |
| ParamSpec.AddMeanKeys | fl_devices.py:57-61 | the inner loop of reduce_add_average never adds or removes a key of the target |
| ParamSpec.AddMeanKeysEffect | fl_devices.py:57-61 | the inner loop of reduce_add_average, raise or not: the keys before the first failing one hold old + the sources' mean; the others are unchanged; it raises the mean's error or a size mismatch for that key |
| ParamSpec.AddMeanKeysUpdates | fl_devices.py:57-61 | the inner loop's status, and the value old + mean of every key it updates |
| ParamSpec.AddMeanKeysUntouched | fl_devices.py:57-61 | the inner loop leaves every entry past its first failing key as it was |
| ParamSpec.AddMeanSucceedsIff | fl_devices.py:57-61 | the inner loop succeeds exactly when each key's mean exists and fits the target; each key then holds old + mean, and the mean depends only on the sources and the key |
| ParamSpec.MeanAtOneSource | fl_devices.py:58-60 | with a single source, the mean added for a key is that source's tensor |
| ParamSpec.MeanAtIdenticalSources | fl_devices.py:58-60 | with n >= 1 identical sources m, the mean added for a key is m's tensor |
| ParamSpec.AddMeanFrom | fl_devices.py:55-61 | reduce_add_average leaves as many targets as it was given, each with the keys it had |
| ParamSpec.AddMeanFromUnfold | fl_devices.py:56-61 | one iteration of the outer loop: target i is walked, then the run stops or moves on to target i + 1 |
| ParamSpec.AddMeanFromEffect | fl_devices.py:55-61 | reduce_add_average, raise or not: the targets up to and including the first that raises have been walked; later targets are unchanged; the status is that of the first failing walk |
| ParamSpec.AddMeanEveryTarget | fl_devices.py:55-61 | when reduce_add_average finishes, every target has received the same contribution for each key: the sources' mean for that key |
| ParamSpec.Concat | fl_devices.py:65 | the concatenation has as many elements as the listed tensors together, and begins with the first key's tensor |
| ParamSpec.Flatten | fl_devices.py:64-65 | flatten raises exactly on a dict without entries; otherwise its length is the sum of the tensor lengths |
| ParamSpec.ConcatSplit | fl_devices.py:64-65 | splitting the key list splits the concatenation at the same place |
| ParamSpec.FlattenLayout | fl_devices.py:64-65 | flatten raises exactly on a dict without entries, with the error of an empty torch.cat; otherwise its length is the sum of the tensor lengths, and element e of the tensor at key position i sits right after the elements of the keys before it |
| ParamSpec.ConcatFrame | fl_devices.py:64-65 | flatten depends only on the tensors of the dict's own keys |
| ParamSpec.SumFrom | fl_devices.py:176 | a running sum that succeeds has the size of its start, and every later client has the key at that size |
| ParamSpec.SumAt | fl_devices.py:176 | a key's sum over the clients exists only when every client has the key, all at the size of the sum |
| ParamSpec.SumKeys | fl_devices.py:175-176 | the summing loop succeeds exactly when every key's sum exists; it then holds each listed key's sum and keeps the other entries |
| ParamSpec.DivideKeys | fl_devices.py:179-180 | the dividing loop divides every listed key's tensor by n once, keeps the other entries and keeps the key set |
| ParamSpec.SumFromSums | fl_devices.py:176 | the running sum over the clients succeeds exactly when every client has the key at the same size, and it then equals the elementwise sum |
| ParamSpec.SumAtIsScaledMean | fl_devices.py:176-180 | a key's sum exists exactly when its mean does; it raises KeyError or a size mismatch for that key otherwise; divided by the client count it is the mean |
| ParamSpec.AverageDw | fl_devices.py:170-182 | get_average_dw raises IndexError for no clients; a result keeps the first dW's key order and has a tensor for each of those keys |
| ParamSpec.AverageDwIsMean | fl_devices.py:170-182 | get_average_dw raises IndexError for no clients; otherwise it succeeds exactly when every key of the first dW has a mean, and then returns the first dW's keys in order, each holding that mean |
| ParamSpec.AverageOfCancellingUpdates | fl_devices.py:170-182 | averaging updates that cancel out for a key gives the zero tensor for that key |
| ParamMaps.Copy | fl_devices.py:45-47 | the in-place copy leaves the target as CopyKeys describes, a partial copy before a KeyError included; the target may be the source itself |
| ParamMaps.CopyAlike | fl_devices.py:122 | copying between dicts with the same keys cannot raise and makes the target equal to the source |
| ParamMaps.GetDW | fl_devices.py:50-52 | the in-place get_dW leaves the target as AccumulateKeys describes, even when the target is also an operand |
| ParamMaps.AddMean | fl_devices.py:57-61 | the in-place inner loop leaves the target as AddMeanKeys describes |
| ParamMaps.ReduceStep | fl_devices.py:56-61 | one turn of the outer loop walks one target in place, and the run from the next target on still ends where the run from the start does |
| ParamMaps.ReduceLoop | fl_devices.py:56-61 | the outer loop leaves the targets' contents and the status that AddMeanFrom gives for their starting contents |
| ParamMaps.ReduceAddAverage | fl_devices.py:55-61 | the in-place reduce_add_average leaves the targets as AddMeanFrom describes and reports its status |
| Similarity.Angle | fl_devices.py:74-76 | the score has the sign of the dot product of the two vectors: negative, zero or positive with it |
| Similarity.Entry | fl_devices.py:72-76 | an entry raises only for a dict without entries or for vectors that cannot be multiplied; two non-empty dicts of the same total size always score |
| Similarity.PairwiseAngles | fl_devices.py:68-78 | the result is the n-by-n symmetric matrix of the scores of every pair when all of them can be computed; otherwise it is the error of the first pair, in visiting order, that raises |
| Similarity.FillRow | fl_devices.py:71-76 | one row of the matrix is filled with its scores, or the row's first failing entry is reported; the other rows are unchanged |
| Similarity.FirstFailureInRow | fl_devices.py:70-76 | a failure in row i, after all earlier rows succeeded, is the first failure of the matrix |
| Similarity.AngleSymmetric | fl_devices.py:74-76 | the score of a with b equals the score of b with a |
| Similarity.EntrySymmetric | fl_devices.py:70-76 | entry (i, j) raises exactly when entry (j, i) does, and otherwise equals it |
| Similarity.AngleOfOpposite | fl_devices.py:74-76 | a non-zero update scores strictly negative against its exact opposite |
| Similarity.SelfAngleBounds | fl_devices.py:74-76 | with the Euclidean norm and exact reals, a diagonal score is at least 0 and strictly below 1 |
| Devices.ZerosLike | fl_devices.py:110-115 | zeros_like gives, for each parameter, a zero tensor of the same size under the same key |
| Devices.Client.constructor | fl_devices.py:92-115 | W holds the model's parameters; dW and W_old hold zeros of the same sizes; there is no rollback point yet; no round has been trained and the learning rate has never been decayed; the client invariant holds |
| Devices.Client.SynchronizeWithServer | fl_devices.py:117-119 | W becomes a copy of the server's W on W's keys, a partial copy before a KeyError included; after a successful copy the rollback point is W itself |
| Devices.Client.ComputeWeightUpdate | fl_devices.py:121-131 | W_old becomes W as it was; the learning rate is multiplied by 0.99; W holds what training left; after successful training dW grows by W - W_old and the loss is returned |
| Devices.Client.StartRound | fl_devices.py:122-123 | W_old becomes a copy of W without raising, and the learning rate decays by 0.99 |
| Devices.Client.FinishRound | fl_devices.py:124-130 | W holds what training left; a failed training raises and leaves dW alone; otherwise dW grows by W - W_old |
| Devices.Client.AccumulateRound | fl_devices.py:130 | dW becomes get_dW(dW, W, W_old), and the round is added to the record of rounds dW accounts for |
| Devices.Client.Reset | fl_devices.py:133-134 | reset raises AttributeError before any synchronization; after one it succeeds and W keeps its current tensors |
| Devices.Rate | fl_devices.py:123 | the learning rate after any number of decays stays between 0 and the initial rate |
| Devices.RateDecreases | fl_devices.py:123 | a positive learning rate stays positive and strictly decreases with every update |
| Devices.RateClosedForm | fl_devices.py:123 | after n updates the learning rate is lr0 * 0.99^n |
| Devices.DwSumsAllRounds | fl_devices.py:110-131 | the client's dW holds, element by element, the sum over all rounds finished since construction of W after training minus W before it |
| Devices.Gather | fl_devices.py:197 | the picked accuracies are one per index; a failure is IndexError for one of the indices |
| Devices.PyIndex | fl_devices.py:197 | Python's xs[i] for an index in range: non-negative indices as they are, negative ones counted from the end |
| Devices.GatherPicks | fl_devices.py:197 | [accuracies[i] for i in idcs] succeeds exactly when every index is in range and then picks, in order, the designated elements; otherwise it raises IndexError for the first bad index |
| Devices.CohortRunAt | fl_devices.py:162-166 | the run of cohort ci is reduce_add_average over that cohort's W dicts and dW dicts |
| Devices.FirstFault | fl_devices.py:162-166 | the loop over the cohorts finishes exactly when every cohort's run finishes |
| Devices.FirstFaultAt | fl_devices.py:162-166 | when cohort f raises and every cohort before it finished, the loop raises what cohort f raised |
| Devices.Aggregated | fl_devices.py:162-166 | cohorts before and including the first that raises hold what their runs left; later cohorts keep their contents |
| Devices.AggregatedHolds | fl_devices.py:162-166 | when the loop stops, every client's W holds what Aggregated describes |
| Devices.AggregateCohort | fl_devices.py:163-166 | one cohort's reduce_add_average leaves each member's W as that cohort's run describes |
| Devices.AggregateTurn | fl_devices.py:162-166 | one iteration changes only the current cohort's W dicts, to what its run leaves; every client keeps its invariant |
| Devices.AggregateCohorts | fl_devices.py:162-166 | the loop over the cohorts stops at the first that raises and leaves the W dicts as Aggregated describes |
| Devices.Server.constructor | fl_devices.py:138-141 | W holds the model's parameters and the model cache is empty |
| Devices.Server.AggregateWeightUpdates | fl_devices.py:146-147 | every call raises TypeError for the keyword `target` |
| Devices.Server.ComputePairwiseSimilarities | fl_devices.py:149-150 | the result is the similarity matrix of the clients' dW dicts, as pairwise_angles defines it |
| Devices.Server.AggregateClusterwise | fl_devices.py:161-168 | each cohort in turn adds its own members' mean dW into each member's W; a client's W changes only by its own cohort's mean; the first cohort that raises ends the call; every client keeps its invariant |
| Devices.Server.GetAverageDw | fl_devices.py:170-182 | the result is AverageDw of the clients' dW dicts: IndexError for no clients; otherwise the first dW's keys, each holding the sum over the clients divided by their number; no client changes |
| Devices.Server.CacheModel | fl_devices.py:192-199 | the cache grows by exactly one entry: the indices, a snapshot of params and [accuracies[i] for i in idcs]; an out-of-range index raises and the cache is unchanged |

## Left out

- train_op and eval_op are not modelled. They run neural-network forward and backward passes
  through torch. Training is the `fit` parameter of `ComputeWeightUpdate`: the parameters it
  leaves in W, and its loss or its failure.
- Devices.Client.ComputeWeightUpdate requires that training leaves a tensor under every key of
  W and under no other key. The optimizer only changes values, never keys. The learning rate's
  effect on training is not modelled.
- Server.cluster_clients is not modelled. It wraps scikit-learn's agglomerative clustering,
  which is outside this code.
- select_clients is not modelled, because it is library randomness.
- compute_max_update_norm and compute_mean_update_norm are not modelled. Both need the
  square-root Euclidean norm of floats.
- The norm in pairwise_angles is a parameter that is only required to be non-negative.
  SelfAngleBounds assumes it is the square root of the squared norm.
- Device selection, DataLoader construction, random_split, evaluate and building the model
  from `model_fn` are not modelled. They are I/O and torch plumbing. A client and the server
  are built from the parameter values such a model would have.
- Floating point is not modelled. Tensors hold exact reals, so rounding, NaN and infinities do
  not arise. The 0.99 decay and the 1e-12 term are exact.
- Similarity.SelfAngleBounds: the diagonal score stays strictly below 1 only because reals are
  exact. In float32 the 1e-12 is lost next to any norm product above about 2e-5, so the diagonal
  of an ordinary update is 1, give or take one unit of rounding.
- Multi-dimensional shapes and broadcasting are collapsed to element counts. Two tensors
  combine only when their counts agree; any other combination raises a size mismatch. The only
  exception is the one-dimensional broadcasting of a length-1 vector in `s1 * s2`.
- `.clone()` and `.data` need no model: values are immutable and a dict owns its tensors.
- The `numpy()` conversion at the end of pairwise_angles is not modelled. The result is a plain
  matrix of reals; for no clients it is the empty matrix.
- ParamMaps.ReduceAddAverage requires that no dict is a target twice and that no target is
  also a source. It reads the sources' contents once, at the start. Every caller in this code
  meets these requirements: the targets are W dicts and the sources are dW dicts.
- Devices.Server.AggregateClusterwise requires that no client is in two cohorts or twice in
  one cohort. This is what cluster_clients produces. A repeated client would receive a mean
  twice.
- Devices.Server.GetAverageDw: Python's sum starts from the integer 0, and `0 + t` is `t`. The
  model starts each sum from the first client's tensor, which is the same value.
