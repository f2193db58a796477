# CPM2 parameter offloading and the lottery reward, in Dafny

This project models two parts of the repository.

**The CPM2 inference model** (`bigmodels/models/cpm2.py`). It keeps the
transformer's parameters on the host and places them in a device memory
budget. The model covers three things:

- **The constructor.** It plans that budget. In *overlap* mode it uses a
  parameter allocator, two overlap allocators of `W` largest-layer slots
  each, and a variable allocator. In *static* mode it uses one parameter
  allocator that holds everything. It refuses a memory limit that is too
  small. It preallocates the dynamic memory and copies the non-stack
  sub-layers plus the first `W` encoder and decoder layers to the device.
  Then it drops the host copies of what went to the device.
- **The encoder pass of `forward`.** It computes layer `i` after waiting
  on the load event at the start of every window of `W` layers. At the
  last layer of a window that is not the last layer of the stack, it
  resets the overlap allocator `((i+1)//W) % 2`, waits on the compute
  event, streams in the next window, and records a new pair of events.
- **The budget arithmetic.** This is the planning behind both of the above.

**The reward function** of the double-colour-ball training script
(`train_double.py`). It compares six red numbers as sets and one blue
number, and pays a prize tier.

Files:

- `budget.dfy` (module `Budget`): the planner. It covers the largest
  layer, the overlap guard and capacities, the static guard, and the
  lemmas that every window and the initial load fit their allocators.
- `schedule.dfy` (module `Schedule`): the encoder pass as a pure
  specification. `Trace(N, W)` is the sequence of stream actions
  (waits, computes, resets, loads, event records, synchronisations) that
  the pass issues. The lemmas about it state which window is prefetched,
  where, after which event, and how often.
- `cpm2.dfy` (module `Cpm2`): the model object as a class. It holds each
  layer's placement and host copy, the bytes used in each allocator, and
  a generation counter per overlap allocator that tells the windows an
  allocator has held apart. `Create` runs the constructor.
  `Forward` runs the encoder loop and is proved to produce
  `Schedule.Trace`. It keeps every layer of the current window usable
  and every allocator within its capacity. The loop's effect on the
  overlap allocators is `Run`, the fold of one `Step` per layer, and the
  lemmas about `Run` state what each allocator holds afterwards.
- `lottery.dfy` (module `Lottery`): `calculate_reward` and its tier table.

The layer sizes (`nbytes`), the configuration and the temporary buffer
size are parameters. Events are named by the layer whose step recorded
them: `Initial`, or `AtBoundary(i)`.

## Model

| member | source | states |
|---|---|---|
| Budget.MaxBytes | bigmodels/models/cpm2.py:66-70 | the largest layer size: it bounds every layer, is one of them, and is 0 for no layers |
| Budget.LargestLayerBytes | bigmodels/models/cpm2.py:66-70 | the two `mx_size` loops compute the largest size over the encoder and then the decoder layers |
| Budget.PlanOverlapped | bigmodels/models/cpm2.py:72-84 | fails exactly when overlap + other + 2*temp + dynamic exceeds the limit, and reports that sum; on success each overlap allocator holds `W*mx`, the parameter allocator holds other + two windows, the capacities add up to limit - 2*temp, and the variable allocator can hold the dynamic memory |
| Budget.PlanStatic | bigmodels/models/cpm2.py:94-102 | corrected guard: fails exactly when total + dynamic exceeds the limit; on success the parameter allocator holds the total and the variable allocator holds the rest, at least the dynamic memory |
| Budget.PlanStaticAsWritten | bigmodels/models/cpm2.py:94-100 | as written: fails exactly when total + dynamic is below the limit; when it succeeds the variable allocator is at most the dynamic memory, and equal to it only when the budget is exactly full |
| Budget.StaticGuardInverted | bigmodels/models/cpm2.py:94-95 | total 10, dynamic 5, limit 100 is refused as written and accepted when corrected; total 100 under limit 50 is accepted as written with a variable capacity of -50 |
| Budget.RunFits | bigmodels/models/cpm2.py:73 | any run of layers, each at most `mx`, takes at most its length times `mx` bytes |
| Budget.WindowFits | bigmodels/models/cpm2.py:73-80 | a window of at most `W` layers fits the `overlap_size // 4` of an overlap allocator |
| Budget.InitialLoadFits | bigmodels/models/cpm2.py:79-92 | the non-stack sub-layers plus the first `min(W, len)` encoder and decoder layers fit `other_size + overlap_size // 2` |
| Cpm2.WindowWidth | bigmodels/models/cpm2.py:24-28 | `overlap_layers` is the configured width in overlap mode; otherwise it is the taller stack, at least as tall as both |
| Cpm2.PlanFor | bigmodels/models/cpm2.py:64-102 | the constructor's planning: it fails exactly when the guard of the active mode fires, and on success the plan's mode is the configured one |
| Cpm2.OverlappedPlanFacts | bigmodels/models/cpm2.py:66-92 | an accepted overlap plan has allocators of `W*mx`, every encoder layer is at most `mx`, and the initial load fits the parameter allocator |
| Cpm2.Placed | bigmodels/models/cpm2.py:86-104 | moving the first `count` layers to the parameter allocator places exactly those layers and leaves the host copies alone |
| Cpm2.Purged | bigmodels/models/cpm2.py:109-119 | removing host data drops exactly the first `count` host copies and leaves the placements alone |
| Cpm2.MoveToParameters | bigmodels/models/cpm2.py:89-90 | the `to_device` loop places the first `count` layers and adds their bytes to the parameter allocator |
| Cpm2.DropHostCopies | bigmodels/models/cpm2.py:114-115 | the `_remove_data` loop, with the corrected bound, drops exactly the first `count` host copies |
| Cpm2.Streamed | bigmodels/models/cpm2.py:157-159 | streaming layers `lo..hi` into allocator `a` gives exactly those layers that allocator's current generation and changes nothing else |
| Cpm2.StreamWindow | bigmodels/models/cpm2.py:157-159 | the prefetch loop streams the window, uses that window's bytes, and issues one load per layer in order |
| Cpm2.PurgeStackAsWritten | bigmodels/models/cpm2.py:114-115 | the purge loop as written fails with an index error at `len(layer)` exactly when `W` exceeds the stack, and otherwise drops the first `W` host copies, exactly as the corrected purge does |
| Cpm2.PurgeAsWrittenOverruns | bigmodels/models/cpm2.py:114-115 | with `W = 4` and two-layer stacks, the plan is accepted and the purge as written indexes layer 2 of a two-layer stack |
| Cpm2.StreamedKeeps | bigmodels/models/cpm2.py:157-159 | streaming past the first window keeps the host copies and the first window's device placement |
| Cpm2.StreamedWindowLive | bigmodels/models/cpm2.py:141-162 | after a prefetch at a boundary, every layer of the next window sits in the target allocator's current generation |
| Cpm2.Model.constructor | bigmodels/models/cpm2.py:20-59 | a built model with an accepted plan, no layer on the device, every host copy present and every allocator empty |
| Cpm2.Model.Preallocate | bigmodels/models/cpm2.py:84-102 | the variable allocator takes the dynamic memory and nothing else changes |
| Cpm2.Model.LoadInitial | bigmodels/models/cpm2.py:86-104 | places the non-stack sub-layers and the first `min(W, len)` layers of each stack (all layers in static mode), using exactly the initial-load bytes, within capacity |
| Cpm2.Model.Purge | bigmodels/models/cpm2.py:109-119 | corrected purge: drops the host copies of the non-stack sub-layers and the first `min(W, len)` layers of each stack (all layers in static mode), and nothing else |
| Cpm2.Model.Create | bigmodels/models/cpm2.py:20-120 | fails exactly when the plan fails, with the same error; otherwise the model is within every capacity and ready for `forward`, the first `min(W, len)` layers of each stack and every other sub-layer are in the parameter allocator with no host copy, every other layer is on the host only, the variable allocator holds the dynamic memory and both overlap allocators are empty and never reset |
| Cpm2.Model.ResetAndStream | bigmodels/models/cpm2.py:152-162 | at a boundary: resets the target allocator to the next window's bytes, starts its next generation, streams exactly the next window into it, and keeps the host copies and the other allocator |
| Cpm2.Model.Boundary | bigmodels/models/cpm2.py:152-162 | the end of a loop iteration issues exactly the prefetch part of the step, records the boundary's event when it fires, and changes the overlap state exactly as `Cpm2.Step` says |
| Cpm2.Model.EncoderLayer | bigmodels/models/cpm2.py:141-163 | one loop iteration issues exactly `Schedule.LayerStep`, moves the load and compute events on to the next layer's, and changes the overlap state exactly as `Cpm2.Step` says: not at all when it does not prefetch, a reset and a streamed window when it does |
| Cpm2.Model.EncoderPass | bigmodels/models/cpm2.py:141-163 | the encoder loop issues the steps of all layers after the two initial records and leaves the overlap state that `Cpm2.Run` computes from the starting one |
| Cpm2.Model.Forward | bigmodels/models/cpm2.py:123-163 | the encoder pass issues exactly `Schedule.Trace(N, W)`, stays within capacity, keeps host copies and the other stacks, and leaves every layer beyond the first window in overlap allocator `(j//W) % 2`; each overlap allocator's generation grows by the resets of it in the trace, each allocator holds the bytes of the last window streamed into it and that window's layers carry its current generation, and with `N <= W` nothing changes |
| Cpm2.LoadThenPurge | bigmodels/models/cpm2.py:86-119 | loading the first `count` layers of a host-only stack and then dropping their host copies leaves them on the device only and the rest on the host only |
| Cpm2.StepCounts | bigmodels/models/cpm2.py:152-162 | a step adds one reset to the allocator it prefetches into and none to the other, and a step that does not prefetch changes nothing |
| Cpm2.FilledByStep | bigmodels/models/cpm2.py:152-162 | after one more step each allocator still holds the last window streamed into it: a refill replaces it, and a prefetch into the other allocator lies past it |
| Cpm2.RunCounts | bigmodels/models/cpm2.py:141-162 | after `k` steps an allocator's generation has grown by the number of prefetches into it |
| Cpm2.RunFills | bigmodels/models/cpm2.py:141-162 | after `k` steps allocator `a`'s usage is the bytes of the last window streamed into it before layer `k`, or unchanged if none was, and that window's layers carry its current generation |
| Cpm2.WideRunIsIdle | bigmodels/models/cpm2.py:141-152 | with `N <= W` no step changes the overlap state |
| Cpm2.StaticModeNeverStreams | bigmodels/models/cpm2.py:24-159 | in static mode the width covers the encoder, so the pass never resets, waits on compute, or loads |
| Schedule.PrefetchIsNextWindow | bigmodels/models/cpm2.py:152-159 | a prefetch starts at a window boundary and loads exactly the layers of the next window that exist, which is `W` layers when the stack is long enough |
| Schedule.TargetsAlternate | bigmodels/models/cpm2.py:153 | consecutive prefetches use different overlap allocators, and prefetches two windows apart use the same one |
| Schedule.CheckpointIsPreviousBoundary | bigmodels/models/cpm2.py:156-161 | the compute event a prefetch waits on was recorded at the previous boundary, which prefetched into the other allocator |
| Schedule.PreviousOccupant | bigmodels/models/cpm2.py:153-161 | the allocator a prefetch resets was last filled two boundaries earlier, with the window that ends where the current window begins |
| Schedule.NoPrefetchBetween | bigmodels/models/cpm2.py:152-153 | no prefetch falls between two that are less than two windows apart other than the one a window before, and that one used the other allocator |
| Schedule.WindowReady | bigmodels/models/cpm2.py:142-162 | the first layer of every later window waits on the load event recorded at the boundary that prefetched it into allocator `window % 2` |
| Schedule.LoadsCount | bigmodels/models/cpm2.py:157-159 | a run of loads loads each layer of its range once, into its allocator, and nothing else |
| Schedule.StepLoads | bigmodels/models/cpm2.py:141-162 | a layer step loads layer `j` into `a` exactly when it fires, `a` is its target and `j` is in its prefetch range |
| Schedule.LoadedAtBoundary | bigmodels/models/cpm2.py:152-159 | layer `j` is in the prefetch range of boundary `i` exactly when `j` is past the first window and `i + 1` starts `j`'s window |
| Schedule.StreamedOnce | bigmodels/models/cpm2.py:141-162 | after `k` layers, layer `j` was loaded once into allocator `(j//W) % 2` if its window began by `k`, and never otherwise |
| Schedule.TraceStreamsEachLayerOnce | bigmodels/models/cpm2.py:141-162 | the whole pass loads each layer past the first window exactly once, into allocator `(j//W) % 2`, and loads nothing else |
| Schedule.StepRecords | bigmodels/models/cpm2.py:161-162 | a layer step records the events of boundary `b` only when it is step `b` and fires |
| Schedule.PrefetchRecords | bigmodels/models/cpm2.py:161-162 | a prefetch records its own boundary's events once each |
| Schedule.EventRecordedOnce | bigmodels/models/cpm2.py:129-162 | each boundary's load and compute events are recorded once, and only if that boundary fired |
| Schedule.PrefetchResetsInto | bigmodels/models/cpm2.py:153-155 | a prefetch resets its target allocator once and the other never |
| Schedule.PrefetchResets | bigmodels/models/cpm2.py:155 | each prefetch resets exactly one overlap allocator |
| Schedule.StepResetsInto | bigmodels/models/cpm2.py:152-155 | a layer step resets allocator `a` once exactly when it fires and targets `a`, and never otherwise |
| Schedule.StepResets | bigmodels/models/cpm2.py:152-155 | a layer step resets an allocator exactly when it fires |
| Schedule.TraceResetsSnoc | bigmodels/models/cpm2.py:141-155 | step `k` adds one reset of `a` to the trace exactly when it fires into `a` |
| Schedule.TraceResetsInto | bigmodels/models/cpm2.py:141-155 | the trace of the first `k` steps resets `a` once for each step among them that prefetches into `a` |
| Schedule.FiresCountValue | bigmodels/models/cpm2.py:152 | among the first `k < N` layers, `k // W` are boundaries that fire |
| Schedule.PrefetchesSoFar | bigmodels/models/cpm2.py:141-155 | the resets in the first `k` steps are the boundaries that fired among them |
| Schedule.PrefetchCount | bigmodels/models/cpm2.py:141-155 | a pass over `N > 0` layers prefetches `(N-1) // W` times |
| Schedule.EightLayersPrefetchTwice | bigmodels/models/cpm2.py:141-155 | eight layers in windows of three: two prefetches |
| Schedule.EightLayersStreamed | bigmodels/models/cpm2.py:152-159 | eight layers in windows of three: layers 3-5 go to allocator 1 and layers 6-7 to allocator 0 |
| Schedule.EightLayersNoStrayLoad | bigmodels/models/cpm2.py:157-159 | eight layers in windows of three: the first window and the non-existent layer 8 are never loaded |
| Schedule.EightLayersWindows | bigmodels/models/cpm2.py:142-153 | eight layers in windows of three: the window numbers of layers 3-7 |
| Schedule.LastFill | bigmodels/models/cpm2.py:152-153 | the last boundary before `k` that prefetches into `a`, if any: it fires into `a`, and no later boundary before `k` does |
| Schedule.FillsApart | bigmodels/models/cpm2.py:152-157 | a prefetch's window ends no later than the next prefetch's boundary, so later windows never overlap earlier ones |
| Schedule.EightLayersLastFills | bigmodels/models/cpm2.py:152-159 | eight layers in windows of three: allocator 1 last holds layers 3-5 from boundary 2, allocator 0 layers 6-7 from boundary 5 |
| Schedule.NextLayer | bigmodels/models/cpm2.py:142-162 | how the live window's end and the current event move from one layer to the next |
| Schedule.NoFireInWideWindow | bigmodels/models/cpm2.py:152 | when the window covers the stack, no layer is a prefetch boundary |
| Schedule.WideWindowIsStatic | bigmodels/models/cpm2.py:24-152 | any window at least as tall as the stack gives the same pass, which never resets, waits on compute, or loads |
| Schedule.AsWrittenInRange | bigmodels/models/cpm2.py:157 | the written prefetch range stays inside the stack when `N` is a multiple of `W` or at most `W` |
| Schedule.AsWrittenOverruns | bigmodels/models/cpm2.py:157 | otherwise the last boundary's written range runs to `N`, one past the last layer |
| Schedule.AsWrittenInRangeIff | bigmodels/models/cpm2.py:157 | the written range stays inside the stack for every boundary exactly when `N % W == 0` or `N <= W` |
| Schedule.AsWrittenRequestsPastEnd | bigmodels/models/cpm2.py:157 | eight layers in windows of three: as written the boundary at layer 5 loads up to layer 8, where the corrected range stops at 7 |
| Schedule.AsWrittenAgreesBeforeLastWindow | bigmodels/models/cpm2.py:157 | before the last window the written and the corrected ranges agree |
| Lottery.Reward | train_double.py:30-50 | the reward is one of the seven listed prizes |
| Lottery.RedsAtMostSix | train_double.py:33 | a set of six reds has at most six numbers |
| Lottery.DistinctRedsAreSix | train_double.py:33 | six distinct reds make a set of six |
| Lottery.OverlapAtMostSix | train_double.py:37-45 | at most six reds can match |
| Lottery.SameRedsIffSixMatch | train_double.py:33-39 | for a draw of distinct reds, the red sets are equal exactly when six reds match |
| Lottery.SixMatchesMeanSameReds | train_double.py:33-39 | six matching reds mean equal red sets |
| Lottery.RewardFollowsTierTable | train_double.py:33-50 | for a draw of distinct reds, the reward is the tier-table prize for the matching reds and blue: 7000000, 180000, 3000, 200, 10, 5 or 0 |
| Lottery.JackpotIff | train_double.py:33-34 | the first prize is paid exactly when the red sets and the blue match |
| Lottery.SecondPrizeIff | train_double.py:35-36 | the second prize is paid exactly when the red sets match and the blue does not |
| Lottery.BlueMatchPaysAtLeastFive | train_double.py:37-48 | a matching blue always pays at least 5 |
| Lottery.BlueMissPays | train_double.py:35-50 | without the blue, a prize is paid exactly when the red sets match or four or five reds match, and it is 180000, 200, 10 or 0 |
| Lottery.NothingWonIff | train_double.py:33-50 | nothing is won exactly when the blue misses, the red sets differ and fewer than four reds match |
| Lottery.OnlyFirstSevenCount | train_double.py:33-47 | numbers after the seventh do not affect the reward |
| Lottery.OnlyRedSetsCount | train_double.py:33-47 | only the red sets and the blue affect the reward |
| Lottery.PermutedRedsCount | train_double.py:33-47 | reordering the predicted reds does not change the reward |
| Lottery.TierMonotone | train_double.py:33-50 | in the tier table, more matching reds never pay less |
| Lottery.RewardMonotoneInOverlap | train_double.py:33-50 | for a draw of distinct reds and the same blue outcome, more matching reds never pay less |
| Lottery.BlueMatchNeverWorse | train_double.py:33-50 | for a draw of distinct reds and two guesses with as many matching reds, the one that matches the blue never pays less |
| Lottery.SameRedsBlueMatchNeverWorse | train_double.py:33-50 | for any draw and two guesses with the same reds, the one that matches the blue never pays less |
| Lottery.RepeatedDrawRedsLeaveTheTable | train_double.py:33-48 | with a repeated red in the draw, two predictions with one matching red and the blue pay 7000000 and 5, so the tier table needs distinct draw reds |
| Lottery.RepeatedDrawBlueMatchPaysLess | train_double.py:33-48 | with a repeated red in the draw, of two predictions with one matching red, the one that matches the blue pays 5 and the one that misses it pays 180000 |

## Left out

- Streams, events and the device: the cupy streams run concurrently on the device. The model records the order in which the host issues the actions of each stream, as one sequence, and does not model the device's execution.
- Layer arithmetic: the embedding, the mask, the position bias, the transformer blocks, the shape assertions (cpm2.py:132-139) and the decoder-side layers are not modelled. A layer is its byte size and its placement.
- Allocator internals: `ReusedAllocator`, `SizeLimitedAllocator` and `_get_preapre_buffer_size` are not part of this model. An allocator is a capacity and a byte count. The temporary buffer size is a parameter, and `reset` sets the byte count to zero.
- Disk and host I/O: `load` from `MODEL_PATH`, the `hidden_i8.npy` dump, the `asnumpy` copies and the logging are left out.
- `MODEL_PATH` of `None`: only the loading constructor is modelled.
- `encoder_only`: the model always has a decoder stack, as when `ENCODER_ONLY` is false.
- The order of `_sub_layers`: the base `Model` class is not part of this model. The model places the non-stack sub-layers first, then the encoder, then the decoder. Only the bytes used and the final placements are stated, so the order does not matter.
- `nbytes`: the model takes a stack's `nbytes` to be the sum of its layers' sizes, and the model's `nbytes` to be the sum over all sub-layers.
- Cpm2.Model.Forward: requires `W > 0` when the encoder is non-empty. With `W = 0` the source divides by zero at cpm2.py:142.
- Cpm2.Model.Forward: follows the corrected prefetch range. The range as written is `Schedule.PrefetchEndAsWritten` (see Findings).
- Cpm2.Model.Purge: follows the corrected bound `min(W, len)`. The loop as written is `Cpm2.PurgeStackAsWritten` (see Findings).
- Cpm2.PlanFor: the static branch uses the corrected guard. The guard as written is `Budget.PlanStaticAsWritten` (see Findings).
- Lottery.RewardFollowsTierTable: holds only for a draw whose six reds are distinct. `RepeatedDrawRedsLeaveTheTable` shows why.
- Lottery.BlueMatchNeverWorse: holds only for a draw whose six reds are distinct. `RepeatedDrawBlueMatchPaysLess` shows why; `SameRedsBlueMatchNeverWorse` holds for any draw.
- Lottery.Reward: numbers are integers, and fewer than seven numbers (an `IndexError` in the source) is excluded by a precondition.
- The rest of `train_double.py` (data loading, the random forest, the accuracy) and the other scripts (`Timer.py`, `get_stock.py`, `Detect and Defand HID.py`) are not part of this model.

## Findings

| source | as written | input that shows it | evidently intended | confidence | as-written member | corrected member |
|---|---|---|---|---|---|---|
| bigmodels/models/cpm2.py:157 | `range(i + 1, min(i + W, N) + 1)` | `N = 8`, `W = 3`: the boundary at layer 5 loads layers 6, 7 and 8, and layer 8 does not exist | `range(i + 1, min(i + W + 1, N))`, the next window only | not executed | Schedule.AsWrittenRequestsPastEnd | Schedule.PrefetchIsNextWindow |
| bigmodels/models/cpm2.py:94 | raises when `nbytes + DYNAMIC_MEMORY < MEMORY_LIMIT` | total 10, dynamic 5, limit 100 is refused; total 100, limit 50 is accepted with a variable allocator of -50 bytes | raise when `nbytes + DYNAMIC_MEMORY > MEMORY_LIMIT` | not executed | Budget.StaticGuardInverted | Budget.PlanStatic |
| bigmodels/models/cpm2.py:114 | `for i in range(self.overlap_layers)` over each stack | overlap mode with `W = 4` and two-layer stacks: the plan is accepted, then `layer[2]` is indexed | `range(min(self.overlap_layers, len(layer)))`, as in the loading loop at line 89 | not executed | Cpm2.PurgeAsWrittenOverruns | Cpm2.Model.Purge |
