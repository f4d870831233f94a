# Softmax request routing over a drifting server pool — Dafny model

The program simulates request routing across `K_SERVERS = 5` servers as a
multi-armed bandit. Each request picks a server by softmax selection
(temperature `TAU = 0.5`) over the servers' learned reward estimates. It then
observes a noisy latency from the chosen server, clamped to at least 1.0. The
chosen server's estimate moves towards the reward `-latency` with constant
step `ALPHA = 0.1`, and every server's hidden mean latency drifts by Gaussian
noise. This runs for `NUM_REQUESTS = 10000` requests.

The model has five modules, one file each:

- `Servers` (servers.dfy): the constants, the `Server` record (`id`,
  `trueMeanLatency`, `estimatedReward`, `requestCount`) and the total of the
  request counters.
- `RealSums` (real_sums.dfy): left-to-right sums of reals, running totals and
  the facts normalisation needs.
- `RandomSource` (random_source.dfy): the Gaussian deviate of
  `rand_gaussian`. The uniform draws are inputs. The Box–Muller transform is
  an uninterpreted function that is defined only for a first argument in
  (0, 1], where `sqrt(-2 log u1)` exists. Because of it, the verifier checks
  that the floor on `u1` keeps the transform in its domain for every draw in
  [0, 1].
- `Softmax` (softmax.dfy): `select_server_softmax` as one method built from
  its four steps. These are the max scan, filling the weight buffer and
  summing it, normalising in place (an `array<real>` of size `K_SERVERS`),
  and the roulette walk. Each step is proved against a specification
  function. `exp` is a parameter. All that is known about it is `exp(0) == 1`
  and `exp(x) >= 0`. The second allows for underflow to 0, and the sum of the
  weights is still at least 1 because the arm with the largest estimate
  always has weight 1.
- `Simulation` (simulation.dfy): the initialisation loop, the round update on
  an `array<Server>` (the C array of structs, updated in place), the request
  loop and `main` without its clock and report. The methods are proved
  against a functional model (`AfterRound`, `Step`, `Simulate`). An
  invariant, `Consistent`, is proved to hold after any number of rounds:
  - every `id` equals its index;
  - the counters are non-negative and sum to the number of rounds;
  - an estimate is 0 exactly when its server was never chosen, and is at
    most `-ALPHA` otherwise.

Doubles are modelled as exact reals. The draws of each round are inputs
(`RoundDraws`), in the order the program consumes them: the selection draw,
then the observation pair, then one pair per server for the drift.

## Model

| member | source | states |
|---|---|---|
| `Servers.TotalRequestsPointwise` | alg_anlz_tsrm_odev_1/main.c:113 | changing one server's counter by `d`, and no other, changes the sum of all counters by exactly `d` |
| `Softmax.MaxEstimate` | alg_anlz_tsrm_odev_1/main.c:49-54 | the scanned maximum is at least every estimate of the first `k` servers and equals one of them |
| `Softmax.ScanMaxReward` | alg_anlz_tsrm_odev_1/main.c:48-54 | the scan loop, starting from `servers[0]`, returns the maximum of the first `k` estimates, which is attained by one of them |
| `Softmax.WeightsSumAtLeastOne` | alg_anlz_tsrm_odev_1/main.c:57-61 | all weights are non-negative, a server attaining the maximum has weight `exp(0) = 1`, so the sum is at least 1 and the normalising division is safe |
| `Softmax.FillWeights` | alg_anlz_tsrm_odev_1/main.c:56-61 | the buffer's first `k` entries become the weights `exp((estimate - max) / tau)`, the rest is untouched, and the returned total is their sum |
| `Softmax.Normalize` | alg_anlz_tsrm_odev_1/main.c:63-66 | in place, each of the first `k` entries is divided by the sum, and the rest is untouched |
| `Softmax.ProbabilitiesFormDistribution` | alg_anlz_tsrm_odev_1/main.c:57-66 | in exact arithmetic every normalised probability lies in [0, 1] and they sum to exactly 1 |
| `Softmax.ExponentsNonPositive` | alg_anlz_tsrm_odev_1/main.c:57-59 | subtracting the maximum makes every exponent `(estimate - max) / tau` at most 0, so `exp` is only ever applied to arguments at most 0 |
| `Softmax.WeightsAtMostOne` | alg_anlz_tsrm_odev_1/main.c:57-59 | for an `exp` that is at most 1 on non-positive arguments (as the real and the IEEE exponential are), every weight is at most `exp(0) = 1` |
| `Softmax.ProbabilitiesPositive` | alg_anlz_tsrm_odev_1/main.c:57-66 | if `exp` is strictly positive, every probability lies in (0, 1] |
| `Softmax.EqualEstimatesGiveUniform` | alg_anlz_tsrm_odev_1/main.c:57-66 | when all `k` estimates are equal (all 0.0 at start) every probability is exactly `1/k` |
| `Softmax.RouletteWalk` | alg_anlz_tsrm_odev_1/main.c:69-77 | the walk returns an index in `[0, k)`. Either its running total reaches `r` and no earlier running total does, or no running total reaches `r` and the result is `k - 1` |
| `Softmax.RouletteSelect` | alg_anlz_tsrm_odev_1/main.c:68-77 | the cumulative loop over the buffer returns an index in `[0, k)` equal to the walk's result: the first index whose running total reaches `r`, else `k - 1` |
| `Softmax.ExactWalkReachesDraw` | alg_anlz_tsrm_odev_1/main.c:70-77 | over probabilities summing to 1 and a draw of at most 1, the chosen index always reaches the draw, so the `k - 1` fallback is never what decides in exact arithmetic |
| `Softmax.SoftmaxChoiceReachesDraw` | alg_anlz_tsrm_odev_1/main.c:57-77 | for any estimates and any draw of at most 1, the softmax choice is an index whose running total reaches the draw |
| `Softmax.SelectServerSoftmax` | alg_anlz_tsrm_odev_1/main.c:41-78 | with `1 <= k <= K_SERVERS`, every access is in bounds and the result is in `[0, k)`. It is the roulette walk over the normalised softmax probabilities of the first `k` estimates |
| `RandomSource.LogArgument` | alg_anlz_tsrm_odev_1/main.c:35 | the value reaching the logarithm is at least `1e-7` (so positive); a draw above the floor passes through unchanged, one at or below becomes the floor |
| `RandomSource.RandGaussian` | alg_anlz_tsrm_odev_1/main.c:29-38 | for a first draw in [0, 1] the deviate is `transform(u1, u2) * stddev + mean` with `u1` raised to the floor, so the transform is applied only inside its domain; with `stddev == 0` it is the mean |
| `RandomSource.GaussianFloorsFirstDraw` | alg_anlz_tsrm_odev_1/main.c:29-38 | all first draws at or below the floor give the same deviate as the floor itself |
| `Simulation.InitialMeanLatency` | alg_anlz_tsrm_odev_1/main.c:94 | a starting mean `50 + rand() % 50` is a whole number from 50 to 99 |
| `Simulation.InitialServersConsistent` | alg_anlz_tsrm_odev_1/main.c:92-97 | the initial pool has `id == index`, zero estimates and zero counters summing to 0, and means in [50, 99] |
| `Simulation.InitServers` | alg_anlz_tsrm_odev_1/main.c:92-97 | the initialisation loop leaves the array equal to the initial pool |
| `Simulation.ObservedLatency` | alg_anlz_tsrm_odev_1/main.c:109-110 | the clamped latency is at least 1.0; a sample at or above 1.0 is kept, a lower one becomes 1.0 |
| `Simulation.MovingAverage` | alg_anlz_tsrm_odev_1/main.c:116-119 | the updated estimate lies between the old estimate and the reward, and is `1 - ALPHA` times as far from the reward |
| `Simulation.AfterRound` | alg_anlz_tsrm_odev_1/main.c:113-124 | one round changes no `id` and moves every hidden mean by its own offset. Only the chosen server's counter and estimate change: the counter by exactly +1, the estimate to `v + ALPHA * (-latency - v)` |
| `Simulation.RoundConservesRequests` | alg_anlz_tsrm_odev_1/main.c:113 | one round adds exactly 1 to the sum of all counters |
| `Simulation.RoundPreservesConsistency` | alg_anlz_tsrm_odev_1/main.c:103-124 | a round with a floored observation keeps the pool consistent and counts one more round |
| `Simulation.FirstUpdateFromZero` | alg_anlz_tsrm_odev_1/main.c:116-119 | from an estimate of 0, the updated estimate is `ALPHA * -latency` |
| `Simulation.Step` | alg_anlz_tsrm_odev_1/main.c:105-124 | one request loop iteration keeps `K_SERVERS` servers and adds at least the floor to the accumulated latency |
| `Simulation.SimulationInvariant` | alg_anlz_tsrm_odev_1/main.c:103-125 | after any number of rounds from a consistent pool, the pool is consistent with that many more rounds: the counters sum to the rounds done. The total latency has grown by at least 1.0 per round |
| `Simulation.PlayRound` | alg_anlz_tsrm_odev_1/main.c:108-124 | it returns the clamped observation of the chosen server's mean from before the drift, and leaves the array equal to `AfterRound` of its old contents |
| `Simulation.ServeRequest` | alg_anlz_tsrm_odev_1/main.c:105-124 | selection followed by the round update leaves the array and the running total equal to one `Step` of the model |
| `Simulation.RunRequests` | alg_anlz_tsrm_odev_1/main.c:103-125 | the loop over `NUM_REQUESTS` requests leaves the array and the total latency equal to `Simulate` of the draws |
| `Simulation.RunSimulation` | alg_anlz_tsrm_odev_1/main.c:80-125 | after initialisation and `NUM_REQUESTS` requests, the result is the model's and the pool is consistent. The counters sum to `NUM_REQUESTS` and the mean latency is at least 1.0 |

## Left out

- `rand`, `srand(time(NULL))` and the `rand_double` scaling: the pseudo-random stream is replaced by draws passed in (`RoundDraws`, and `meanDraws` as natural numbers for `rand() % 50`). Seed determinism is therefore not modelled.
- `sqrt`, `log`, `cos` (the Box–Muller transform) and `exp`: transcendental floating-point functions, passed in as uninterpreted functions. Only the `u1` floor, `exp(0) == 1` and non-negativity of `exp` are modelled.
- IEEE rounding: doubles are exact reals. The `k - 1` fallback of the walk is modelled as a defined branch. In exact arithmetic it never decides the choice (`Softmax.ExactWalkReachesDraw`), so the bias it gives under rounding is not captured.
- Statistical properties: that selection frequencies converge to the softmax probabilities, and the distribution of the noise. Both are probabilistic.
- `clock()` timing and all `printf` reporting: I/O only.
- The 32-bit range of the C `int` counters is not modelled: with 10000 requests no counter can overflow.
- The entries of the local `probabilities` buffer past index `k` are uninitialised in C and never read. The model allocates them as 0.0 and proves that they are not touched.
- `Simulation.Simulate`: its own contract only keeps the pool size. What it computes is characterised by `Simulation.SimulationInvariant` and by the methods that are proved equal to it.
- The uniform draws are inputs. As the code's `rand()/RAND_MAX`, each first draw of a Gaussian pair is required to lie in [0, 1] (`RandomSource.UnitDraw`, `Simulation.ValidRound`). The selection draw is unconstrained; only the lemmas about the exact-arithmetic walk assume it is at most 1.
- Freedom from overflow, NaN and infinity in `exp` is a property of IEEE doubles that exact reals cannot express. The model proves the fact it rests on, that every exponent is at most 0 (`Softmax.ExponentsNonPositive`).
- The initial means are `50 + rand() % 50`, so from 50 to 99 ms. The source comment speaks of 50–100 ms. The model follows the code.
