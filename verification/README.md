# Monte Carlo estimate of pi: a Dafny model

The Pi-day scripts estimate pi by sampling points of the square
[-1, 1] x [-1, 1] and counting those that fall in the unit circle
(x*x + y*y <= 1, boundary included); the estimate is 4 * inside / total.
The same counting core appears five times:

- two plain loops (`simple_monte_carlo.py`, `estimating_pi_using_monte_carlo/monte_carlo_simple.py`);
- a batched loop with a report of derived figures (`monte_carlo_with_stats.py`);
- two animated versions (`animation.py`, `monte_carlo_animation.py`), where each call of `update` classifies one point and stores it in an inside or an outside list pair until a window is closed.

`pi_encryption.py` builds a key from random digits of pi.

The model replaces every random draw by an input sequence. Sample points are `seq<Point>` over `real`. Batches are `seq<seq<Point>>`. A key's draws are the indices `random.choice` would pick. All arithmetic is exact.

Modules, one per source file or shared concept:

| file | module | models |
|---|---|---|
| `outcomes.dfy` | `Outcomes` | the exceptions as values (`Result`, `Option`) |
| `sampling.dfy` | `Sampling` | points, the inside rule, the inside count and its algebra |
| `estimation.dfy` | `Estimation` | estimate, relative error, accuracy |
| `plain_scripts.dfy` | `PlainScripts` | the two plain loops |
| `batched_stats.dfy` | `BatchedStats` | the batched loop and its report |
| `animation.dfy` | `Animation` | the frame state machine of `animation.py` |
| `stats_animation.dfy` | `StatsAnimation` | the same machine plus the statistics window |
| `pi_key.dfy` | `PiKey` | digit stripping and key generation |

Points where the model follows the scripts closely rather than an idealised estimator:

- The scripts fix their totals as constants and have no invalid-count error. The plain loops are generalised to any number of samples. An empty run then divides by zero, and the model returns that as `DivisionByZero`.
- `monte_carlo_with_stats.py` draws `total // batch_size` whole batches but divides by `total`. Those are equal for the shipped 1,700,000 and 100,000 (`BatchedStats.ShippedBatchesCoverTotal`). `MakeReport` keeps the script's divisor.
- The reference pi is one positive `real` parameter. `monte_carlo_animation.py` uses numpy's `np.pi`. `monte_carlo_with_stats.py` uses `float(mp.pi)`, which rounds mpmath's value to the same double. `animation.py` computes no estimate and uses no pi.
- Neither animation passes an `init_func` to `FuncAnimation`, so matplotlib's initial draw calls `update` with frame 0 before the frames 0, 1, 2, ... of the animation. How many such extra `update(0)` calls happen depends on matplotlib's version and backend. A window resize can add more. The models therefore count `update` calls, not frames. `StatsAnimation.Run` takes the frame number of every call as an input sequence. `StatsAnimation.LeadingFrames` builds the schedule with `lead` leading `update(0)` calls and no resizes.

## Model

| member | source | states |
|---|---|---|
| Sampling.BoundaryIsInside | simple_monte_carlo.py:8 | (0,0), (1,0), (0,1), (-1,0), (0,-1) are inside; (1,1) is not |
| Sampling.CountInside | simple_monte_carlo.py:6-9 | the counter after a pass never exceeds the number of samples |
| Sampling.CountIsIndexCount | simple_monte_carlo.py:6-9 | the accumulated counter equals the number of positions holding an inside point |
| Sampling.CountAppend | estimating_pi_using_monte_carlo/monte_carlo_simple.py:22-26 | counting two parts of a split and adding gives the count of the whole sequence |
| Sampling.CountAllInside | simple_monte_carlo.py:6-11 | the count equals the total if and only if every point is inside |
| Sampling.CountNoneInside | simple_monte_carlo.py:6-11 | the count is zero if and only if no point is inside |
| Sampling.CountMonotone | simple_monte_carlo.py:6-9 | across iterations the count never decreases and rises by at most one per sample |
| Sampling.PartitionSizes | animation.py:93-99 | inside and outside points together are the samples: sizes add up, and as multisets they equal the samples |
| Estimation.ScaledRatio | simple_monte_carlo.py:11 | `(inside/total)*4` times total is 4*inside; it lies in [0,4]; it is 4 iff all points are inside and 0 iff none is |
| Estimation.ScaledCount | estimating_pi_using_monte_carlo/monte_carlo_simple.py:29 | `4*inside/total` times total is 4*inside and lies in [0,4] |
| Estimation.ScaledFormsAgree | estimating_pi_using_monte_carlo/monte_carlo_simple.py:29 | the two spellings of the estimate are equal, so both plain scripts report the same value |
| Estimation.Estimate | simple_monte_carlo.py:11 | division by a zero total is an error, and only then |
| Estimation.RelativeError | estimating_pi_using_monte_carlo/monte_carlo_with_stats.py:31 | the error is non-negative and zero exactly for a perfect estimate |
| Estimation.Accuracy | estimating_pi_using_monte_carlo/monte_carlo_with_stats.py:31-32 | accuracy is at most 100, and exactly 100 iff the estimate equals the reference |
| Estimation.RelativeErrorScaleFree | estimating_pi_using_monte_carlo/monte_carlo_with_stats.py:39-41 | scaling estimate and reference by the same positive factor leaves the relative error unchanged |
| PlainScripts.CountLoop | simple_monte_carlo.py:3-9 | after the loop, 0 <= inside <= number of samples, and inside counts exactly the inside points |
| PlainScripts.SimpleMonteCarlo | simple_monte_carlo.py:3-11 | count as above; the estimate fails only with no samples, lies in [0,4], is 4 iff every point is inside and 0 iff none is |
| PlainScripts.MonteCarloSimple | estimating_pi_using_monte_carlo/monte_carlo_simple.py:18-29 | count as above; same estimate as simple_monte_carlo.py for the same samples, in [0,4] |
| BatchedStats.NumBatches | estimating_pi_using_monte_carlo/monte_carlo_with_stats.py:21 | whole batches never exceed the total, and one more batch would |
| BatchedStats.ShippedBatchesCoverTotal | estimating_pi_using_monte_carlo/monte_carlo_with_stats.py:12-21 | 1,700,000 points in batches of 100,000 give 17 batches covering the total exactly |
| BatchedStats.FlattenLength | estimating_pi_using_monte_carlo/monte_carlo_with_stats.py:23-25 | batches of equal size hold batch count times batch size points |
| BatchedStats.TrueCount | estimating_pi_using_monte_carlo/monte_carlo_with_stats.py:27 | the sum of a mask is at most its length |
| BatchedStats.MaskSumIsCount | estimating_pi_using_monte_carlo/monte_carlo_with_stats.py:26-27 | summing the mask gives the per-point count of the batch |
| BatchedStats.BatchedCount | estimating_pi_using_monte_carlo/monte_carlo_with_stats.py:20-27 | the batched total equals the count over all batches as one sequence; 0 <= inside <= batches*batch size <= total |
| BatchedStats.MakeReport | estimating_pi_using_monte_carlo/monte_carlo_with_stats.py:30-41 | estimate = 4*points ratio and pi = 4*theoretical ratio; error = abs(estimate - pi)/pi*100 and accuracy = 100 - error; ratio error = error; accuracy <= 100 with equality iff exact; estimated circle area = estimate; square area = 4 |
| BatchedStats.StatsRun | estimating_pi_using_monte_carlo/monte_carlo_with_stats.py:12-41 | the reported count is the count over all drawn points, 0 <= inside <= batches*batch size <= total; the report is `MakeReport` of that count, so all its identities hold: estimate in [0,4], ratio error = error, accuracy <= 100 with equality iff exact |
| Animation.Update | animation.py:82-99 | an update call never changes the running flag |
| Animation.OnClose | animation.py:115-119 | closing stops the machine and changes nothing else |
| Animation.Run | animation.py:125-132 | successive update calls never change the running flag |
| Animation.UpdateWhenStopped | animation.py:85-86 | an update call while stopped changes nothing |
| Animation.UpdateAppendsToOnePair | animation.py:90-99 | a running update appends (x, y) to the inside pair iff the point is inside, otherwise to the outside pair, never both; the counter rises iff inside |
| Animation.UpdatePreservesValid | animation.py:93-99 | counter = inside list lengths and equal pair lengths are kept; a running update stores exactly one more point |
| Animation.InitialIsValid | animation.py:24-28 | the initial state is consistent, running and empty |
| Animation.RunFromInitial | animation.py:24-99 | uninterrupted update calls from the start give counter = inside count, lists = inside/outside points in call order, one point per call |
| Animation.ClosedRunIsNoop | animation.py:85-118 | after a close, any further update calls change nothing |
| Animation.RunPreservesValid | animation.py:93-99 | any run keeps the state consistent and stores one point per running update call |
| StatsAnimation.UpdateStats | estimating_pi_using_monte_carlo/monte_carlo_animation.py:153-168 | nothing while no point is inside; otherwise shows counter, stored total, an estimate in (0,4] and accuracy <= 100; lists untouched |
| StatsAnimation.Update | estimating_pi_using_monte_carlo/monte_carlo_animation.py:178-216 | no-op when stopped; lists change as in animation.py; figures change only when the frame number is divisible by 10; consistency kept |
| StatsAnimation.OnClose | estimating_pi_using_monte_carlo/monte_carlo_animation.py:224-232 | closing stops the machine, keeps the shown figures |
| StatsAnimation.RefreshCalls | estimating_pi_using_monte_carlo/monte_carlo_animation.py:215-216 | with `lead` leading `update(0)` calls and no resizes, statistics are refreshed exactly on the leading calls and on every tenth call after them |
| StatsAnimation.Run | estimating_pi_using_monte_carlo/monte_carlo_animation.py:238-245 | successive update calls, each with the frame number matplotlib passes, keep the canvas consistent |
| StatsAnimation.RunCanvas | estimating_pi_using_monte_carlo/monte_carlo_animation.py:194-216 | the statistics never influence the lists: the canvas equals animation.py's after the same update calls |
| StatsAnimation.RunPreservesValid | estimating_pi_using_monte_carlo/monte_carlo_animation.py:162-216 | shown figures always describe a consistent non-empty sample |
| StatsAnimation.ClosedRunIsNoop | estimating_pi_using_monte_carlo/monte_carlo_animation.py:189-231 | after a close, update calls change neither the lists nor the figures |
| StatsAnimation.RunFromInitialCounts | estimating_pi_using_monte_carlo/monte_carlo_animation.py:40-204 | from the start, the counter is the inside count and the stored total is the number of update calls |
| StatsAnimation.TenthFrameShowsCurrentFigures | estimating_pi_using_monte_carlo/monte_carlo_animation.py:162-216 | right after any call whose frame number is divisible by 10, with some point inside, the window shows the current count, total and estimate, whatever frame numbers earlier calls passed |
| StatsAnimation.StatsLagBetweenRefreshes | estimating_pi_using_monte_carlo/monte_carlo_animation.py:215-216 | a call whose frame number is not divisible by 10 leaves the shown figures unchanged |
| PiKey.PiDigits | pi_encryption.py:30 | the digits are the text minus its first two characters, two shorter; empty for shorter text |
| PiKey.PiDigitsRoundTrip | pi_encryption.py:30 | stripping "3." + d gives back d |
| PiKey.DelaySign | pi_encryption.py:45 | the pause is non-negative iff i <= 20 and positive iff i < 20 |
| PiKey.DefaultDelaysPositive | pi_encryption.py:45-51 | for the default length 16 all pauses are positive, the smallest 0.075 at i = 15 |
| PiKey.Selected | pi_encryption.py:46 | one character per draw, each occurring in the digit string |
| PiKey.SelectedExtends | pi_encryption.py:43-46 | each step extends the previous key by the drawn character |
| PiKey.SelectedKeepsDigits | pi_encryption.py:30-46 | drawing from decimal digits gives a key of decimal digits |
| PiKey.GenerateKey | pi_encryption.py:32-46 | success iff length <= 0, or digits non-empty and length <= 21; empty digits fail with IndexError, longer keys with a negative sleep; a key has `length` characters, each the drawn digit |
| PiKey.ClampedDelay | pi_encryption.py:45 | the clamped pause is non-negative and equals the written one where that is non-negative |
| PiKey.GenerateKeyClamped | pi_encryption.py:32-46 | with the clamped pause, success iff length <= 0 or digits non-empty; the key is as above |

## Left out

- Random number generation (`random.uniform`, `np.random.uniform`, `random.choice`). Draws are input sequences, so nothing is claimed about distributions or convergence.
- Floating-point rounding. All arithmetic is exact `real`, with no claim of bit-exact agreement with Python floats.
- mpmath's high-precision pi and `str(mp.pi)`. The reference pi is a positive parameter and the text of pi is a string parameter.
- Plotting, scatter artists, glow effects, fonts, window titles and geometry, rich panels, progress bars and `time.sleep` itself. These are presentation with no algorithmic content; only the sign of the pause is modelled, since a negative one raises.
- The catch-all exception handler in both `update` functions. It reacts to library failures that the source does not show. As a result the model stops only on a close event.
- Formatting of the reports (`:.6f`, `:,`). This is float formatting.
- `StatsAnimation.UpdateStats`: requires the consistency invariant (`Animation.Valid`), which every reachable state satisfies. Without it, a positive counter over empty lists would divide by zero inside the caught handler.
- `StatsAnimation.Update`: inherits that requirement from `UpdateStats`, which it calls.
- `StatsAnimation.Run`: inherits that requirement through `Update`.
- `StatsAnimation.RunCanvas`: inherits that requirement through `Run`.
- `StatsAnimation.ClosedRunIsNoop`: inherits that requirement through `Run`.
- `BatchedStats.MakeReport`: requires a positive total and reference pi. The script's total is the constant 1,700,000 and its pi is positive.
- `BatchedStats.BatchedCount`: requires a positive batch size. The shipped size is 100,000, and the script has no guard.
- `PiKey.GenerateKey`: returns the key rather than printing it.
- `StatsAnimation.Run` and `Animation.Run`: accept any number of update calls. The program stops after the 5,000 frames of `frames=5000` and `repeat=False`, plus however many `update(0)` calls matplotlib adds for drawing and resizing.

## Findings

| source | as written | input that shows it | evidently intended | confidence | as-written member | corrected member |
|---|---|---|---|---|---|---|
| pi_encryption.py:45 | the pause before draw i is `0.3 - i*0.015`, negative from i = 21 on, and `time.sleep` raises ValueError on a negative pause | `generate_pi_key(22)`: the pause before the 22nd draw is -0.015 | a pause that shrinks to zero and stays there, so that any length works | medium, not executed | PiKey.GenerateKey | PiKey.GenerateKeyClamped |
