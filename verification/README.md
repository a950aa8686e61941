# alloyMg optimiser — a Dafny model

This project models the search core of the alloyMg optimiser. The optimiser looks for a magnesium-alloy composition (31 alloying elements plus a heat-treatment code) that minimises a loss predicted by a regression model. The model covers four parts:

- **`AlDatapoint`** (`datapoint.dfy`): a candidate alloy. It renders into the feature vector the models consume (`formatForInput`): the element percentages in key order, then a 6-slot multi-hot block over heat-treatment codes 1..6. It also gives the implied aluminium balance (`getAl`).
- **`scanSettings`** (`settings.dfy`): the 'DoS' and 'Mechanical' configurations. Each has one heat-treatment variable with its own domain inside the span 1..6, 31 element ranges that are all the one-value list `[0]`, and `max_steps = 1`. This file also builds the fresh datapoint.
- **`optimiser.calculateStep`** (`step.dfy`): one search step. It builds a batch of copies of an anchor datapoint, resamples only the variables `target_var` selects (or all of them for `'all'`), and pins degenerate ranges to their single value. It uses the cooling-schedule width `std`, and returns `min(loss)` with the first batch member attaining it.
- **`optimiser.run`** (`search.dfy`): the driver. A global phase of `max_steps` steps is followed by the finetune phase. Because of the inner loop's `for … else: break`, the finetune phase is always exactly one pass over the keys at step number 0. The driver keeps the best datapoint and a best loss that only moves down. `modes.dfy` combines this with the two configurations.

Shared folds (`sum`, `min`, `max`, `list.index`, `np.mean`) are in `seqs.dfy`. `options.dfy` holds the `None`/value type.

Some things are parameters rather than code:
- The loss is an arbitrary function from feature vectors to reals (`Step.Loss`). It stands in for the `'elongation'` model's `predict(...)[0]`.
- Random draws come from an oracle (`Step.Draws`, and `Search.Oracle` per call of a run). For each categorical variable it gives the index `np.random.choice` picks, reduced modulo the domain size. For each continuous variable it gives the value `truncnorm.rvs` returns for the bounds, centre and width the code passes.

The datapoint is a value, so every batch member is automatically an independent copy. The anchor can never be changed by a step, which matches the `deepcopy` at optimiser.py:138.

Points where the code's behaviour is easy to misread:
- Although `finetune_max_rounds` is 3, the inner loop's `for … else: break` ends the finetune phase after one pass. The inner loop has no `break`, so its `else` clause always runs and breaks the outer loop (`Search.FinetuneLoop`, `Search.PassCompletes`, `Search.FinetuneIsOnePass`).
- The code raises no errors of its own. `Settings.WellFormed` excludes the empty lists on which `np.random.choice`, `min` and `max` raise.
- A fresh datapoint stores the settings' domain and range lists themselves (optimiser.py:14-16). The model keeps a categorical list as `Pending(domain)`, which never matches a code in the one-hot test. It keeps a range list as its mean, which is the sampling centre `np.mean` gives.
- On a tie the earlier best datapoint stays: only a strictly smaller loss replaces it (`Search.Holder`).

## Model

| member | source | states |
|---|---|---|
| AlDatapoint.Features | optimiser.py:18-21 | `formatForInput`: the element values in key order followed by the one-hot block; its ensures (length, prefix, block) restate the body, and FeaturesDecode is the property about it |
| AlDatapoint.OneHot | optimiser.py:19 | the block has exactly 6 slots; slot j is 1 iff code j+1 is assigned to some categorical variable and 0 otherwise; a pending domain list never counts |
| AlDatapoint.FeaturesDecode | optimiser.py:18-21 | the feature vector has length (number of continuous keys) + 6; its prefix is the continuous values in key order; its block decodes back to exactly the assigned codes in 1..6 |
| AlDatapoint.PendingIsCold | optimiser.py:14-19 | a datapoint whose categorical values are still domain lists has an all-zero one-hot block |
| AlDatapoint.AlBalance | optimiser.py:30-31 | `getAl`, 100 minus the sum of the elements; no contract of its own, AlBalanceUpdate and AlBalanceOfZeros state its properties |
| AlDatapoint.AlBalanceUpdate | optimiser.py:30-31 | changing one element's percentage from a to b moves the Al balance by a - b, so the balance is 100 minus the sum of the elements |
| AlDatapoint.AlBalanceOfZeros | optimiser.py:30-31 | with every element at 0 the Al balance is 100 |
| Settings.ScanSettings | optimiser.py:34-72 | exactly 'DoS' and 'Mechanical' give a configuration; it is well formed and has distinct keys, max_steps 1, one categorical variable, and 31 element ranges that are all degenerate at 0; every domain code lies in the span and in 1..6 |
| Settings.ModeConfigFacts | optimiser.py:44-54 | a mode configuration with a domain inside the span 1..6 is well formed, its keys are pairwise distinct and never 'all', and all 31 ranges are degenerate at 0 |
| Settings.Initial | optimiser.py:13-16 | the fresh datapoint has one value per key: each categorical variable still holds its domain list, each continuous one the mean of its range list |
| Settings.InitialPinned | optimiser.py:13-16 | the fresh datapoint, whose continuous value is its range list's mean, already sits at the single value of every degenerate range |
| Seqs.Min | optimiser.py:153 | `min` returns a member of the list that is at most every element |
| Seqs.IndexOf | optimiser.py:153 | `list.index` returns the first position holding the value |
| Seqs.DegenerateMean | optimiser.py:144-148 | when a range list's max equals its min, its mean (the sampling centre) is that value |
| Step.BatchSize | optimiser.py:130-133 | the batch is 100 for 'all' and 10 for a single key, never empty |
| Step.Std | optimiser.py:136 | the cooling-schedule width; no contract of its own, StdCools states its properties |
| Step.StdCools | optimiser.py:136 | std = final * max_steps / (step + 1) is positive for positive parameters, strictly decreasing in the step number, and equals final at the last step |
| Step.Member | optimiser.py:137-151 | a batch member keeps the anchor's value for every unselected variable; gives each selected categorical variable a code of its domain; pins each selected degenerate variable to its min; otherwise takes the truncated-normal draw centred on the anchor's value with width std |
| Step.Batch | optimiser.py:134-138 | the batch has BatchSize(target) members, each a resampled copy of the anchor that obeys the same frame |
| Step.FrameTouchesOnlyTarget | optimiser.py:139-151 | with distinct keys, a step aimed at one finetune key leaves every other variable equal to the anchor's value |
| Step.CalculateStep | optimiser.py:129-153 | the returned datapoint obeys the frame of the step's target, and the returned loss is the loss of the returned datapoint's feature vector |
| Step.StepIsFirstMinimum | optimiser.py:152-153 | the returned loss is at most every batch member's loss, and the returned datapoint is the first batch member with that loss |
| Search.Accept | optimiser.py:114-123 | taking a step's outcome into account: the call is appended to the log with the resulting best loss, and the best datapoint becomes the outcome's exactly when the replacement test holds |
| Search.RunningMinBounds | optimiser.py:114-121 | a best loss that is the running minimum never rises from one call to the next and never exceeds any call's loss |
| Search.RunningMinAttained | optimiser.py:114-123 | a running minimum is reached: the last best loss is the loss some call returned |
| Search.AcceptKeepsTracking | optimiser.py:113-123 | replacing the best only on the first step or on a strictly smaller loss keeps the invariant: the logged best is the running minimum of the calls' losses (set by the first call, replaced only by a strictly smaller loss), the best datapoint is the one returned by the last call that set it and has the best loss; the best loss never rises; degenerate variables stay pinned; categorical values stay domain codes |
| Search.StepsDownIsNonIncreasing | optimiser.py:110-123 | a best loss that never rises from one call to the next never rises between any two calls |
| Search.GlobalLoop | optimiser.py:112-116 | the global loop keeps the datapoint's shape and has set a best loss once it has made at least one step |
| Search.GlobalLoopTracks | optimiser.py:110-116 | the global loop keeps the driver's invariant and never raises an existing best loss |
| Search.FinetunePass | optimiser.py:119-123 | the finetune pass keeps the datapoint's shape and a set best loss |
| Search.PassCompletes | optimiser.py:119-124 | the inner loop has no `break`, so every finetune pass ends `Completed`, which triggers its `else: break` |
| Search.FinetuneLoop | optimiser.py:118-125 | the outer `for i in range(finetune_max_rounds)`: the result keeps the datapoint's shape and a set best loss; a completed pass ends the loop, a broken one would go on to round i+1 |
| Search.FinetunePassTracks | optimiser.py:119-123 | the finetune pass keeps the driver's invariant, and its final best loss is at most the best loss it started from |
| Search.GlobalLoopCalls | optimiser.py:112-113 | the global loop makes one call per remaining step, each with target 'all', numbered consecutively |
| Search.FinetunePassCalls | optimiser.py:119-120 | a finetune pass makes one call per remaining key, in key order, each with the round as step number |
| Search.SweepsAt | optimiser.py:112-113 | the global schedule has max_steps entries, entry t being ('all', t) |
| Search.VisitsAt | optimiser.py:119 | the finetune schedule has one entry per key, entry t being (key t, round) |
| Search.GlobalPhase | optimiser.py:110-116 | after the global phase (max_steps at least 1) a best loss is set and the best datapoint has its shape |
| Search.GlobalPhaseTracks | optimiser.py:110-116 | starting from the fresh datapoint with no best loss, the global phase establishes the driver's invariant |
| Search.FinetuneIsOnePass | optimiser.py:118-125 | for any finetune_max_rounds of at least 1, the finetune phase equals a single pass over the keys at step number 0, because the pass completes (PassCompletes) and its else clause breaks the outer loop |
| Search.GlobalPhaseCalls | optimiser.py:110-113 | the global phase makes max_steps calls on 'all', numbered 0, 1, … |
| Search.FinetunePhaseCalls | optimiser.py:118-125 | for every finetune_max_rounds of at least 1, the finetune phase adds exactly one call per key, in key order, at step number 0 |
| Search.Run | optimiser.py:109-125 | `run`: the global phase then the finetune phase with 3 rounds; the result has a best loss and a best datapoint of the configuration's shape |
| Search.RunCalls | optimiser.py:109-125 | a run makes exactly max_steps calls on 'all' numbered 0.., then one call per key (categorical keys first) with step number 0, and no more |
| Search.RunBestInDomain | optimiser.py:109-151 | the final best datapoint has every degenerate variable at its single value and a domain code for every categorical variable |
| Search.RunBestLoss | optimiser.py:109-125 | the best loss never rises along the run; the final best loss is at most the best after the global phase, at most every step's loss, and equal to the loss of the final best datapoint; it is the running minimum of the steps' losses (set by the first step, replaced only by a strictly smaller loss) and the loss of some step; the final best datapoint is the one returned by the last step that set the best loss |
| Modes.FixedElementsPoint | optimiser.py:51-54 | a datapoint with every element at its single value 0 and a drawn heat-treatment code has zero elements, Al balance 100, and that code as its one hot slot |
| Modes.FixedElementsResult | optimiser.py:51-54 | when every element range is the single value 0, the result has all elements 0 and Al balance 100, and its one hot slot is its drawn heat-treatment code |
| Modes.ModeResult | optimiser.py:38-72 | in both modes the result has 31 zero elements, Al balance 100, and a heat-treatment code from the mode's domain |
| Modes.DoSResult | optimiser.py:44-54 | in the 'DoS' mode, whatever the loss and the draws, the result is heat treatment 1 with no alloying elements |

## Left out

- Module import and model loading (optimiser.py:4-8, 88): environment-dependent I/O and foreign code.
- `calculateLoss` (optimiser.py:92-96): the `'elongation'` model's prediction, used by both modes, is the loss parameter.
- The distributions of `np.random.choice` and `truncnorm.rvs` (optimiser.py:141, 148): these are foreign samplers, and their draws are oracle inputs. The truncated-normal oracle gets the bounds `[lo, hi]` with centre and width, which carries the same information as the standardised `a`, `b` the code computes.
- Step.Member: says nothing about where a non-degenerate draw lands, because keeping it inside `[min, max]` is the sampler's guarantee, not this code's.
- Rounding of drawn values to 2 decimals (optimiser.py:147-149), and floating-point arithmetic in general: values, sums and `std` are exact reals.
- `AlDatapoint.print`, `printResults` with its 1.25 display factor, and the "Scan Finished" banner (optimiser.py:23-28, 98-107, 126): output only.
- `targets`, `loss_type` and the tags of `categorical_inputs_info` (optimiser.py:39-43, 48-49, 58-63, 68, 82-83): the search never reads them. Only the span is kept.
- The constructor's call to `run` (optimiser.py:90): `Search.Run` is called directly.
- Search.Run: requires `max_steps` of at least 1. With 0 the first finetune step raises: the datapoint still holds range lists and `best_loss` is None. Both modes use 1.
- Settings.WellFormed: every member requires non-empty domain and range lists, so the error the code raises on an empty list (inside `np.random.choice`, `min` or `max`) is not modelled.
- A fresh datapoint's feature vector and Al balance: the code would put lists into them. No code path reaches this, because the first step resamples every variable.
