/** The simulation driven by `main`: server initialisation, the per-round
    bookkeeping (latency floor, request counter, moving-average estimate,
    drift of every hidden mean) and the loop over all requests. The random
    draws of each round are inputs, in the order the program consumes them. */
module Simulation {
  import opened Servers
  import opened RealSums
  import opened RandomSource
  import opened Softmax

  /** Smallest latency an observation may report. */
  const LATENCY_FLOOR: real := 1.0
  /** Standard deviation of the observation noise. */
  const OBSERVATION_STDDEV: real := 5.0
  /** Standard deviation of the per-round drift of each hidden mean. */
  const DRIFT_STDDEV: real := 0.5

  /** The starting hidden mean `50 + (draw % 50)` for a non-negative
      integer draw: a whole number of milliseconds from 50 to 99. */
  function InitialMeanLatency(draw: nat): (m: real)
    ensures 50.0 <= m <= 99.0
    ensures m == m.Floor as real
  {
    50.0 + (draw % 50) as real
  }

  /** The pool after the initialisation loop: server `i` has identity `i`,
      a starting mean from draw `i`, no estimate and no requests. */
  function InitialServers(meanDraws: seq<nat>): (s: seq<Server>)
    requires |meanDraws| == K_SERVERS
    ensures |s| == K_SERVERS
  {
    seq(K_SERVERS, i requires 0 <= i < K_SERVERS => Server(i, InitialMeanLatency(meanDraws[i]), 0.0, 0))
  }

  /** What holds of the pool after `rounds` completed rounds: identities are
      the indices, the counters are non-negative and sum to `rounds`, and an
      estimate is 0 exactly for a server never chosen, and otherwise at most
      `-ALPHA * LATENCY_FLOOR` (every reward is a negated latency). */
  ghost predicate Consistent(s: seq<Server>, rounds: int)
  {
    && |s| == K_SERVERS
    && (forall i :: 0 <= i < |s| ==>
          && s[i].id == i
          && s[i].requestCount >= 0
          && (s[i].requestCount == 0 ==> s[i].estimatedReward == 0.0)
          && (s[i].requestCount > 0 ==> s[i].estimatedReward <= -ALPHA * LATENCY_FLOOR))
    && TotalRequests(s) == rounds
  }

  lemma InitialServersConsistent(meanDraws: seq<nat>)
    requires |meanDraws| == K_SERVERS
    ensures Consistent(InitialServers(meanDraws), 0)
    ensures forall i :: 0 <= i < K_SERVERS ==> 50.0 <= InitialServers(meanDraws)[i].trueMeanLatency <= 99.0
  {
    TotalRequestsIdle(InitialServers(meanDraws));
  }

  /** The clamp applied to a raw observation. */
  function ObservedLatency(sample: real): (l: real)
    ensures l >= LATENCY_FLOOR
    ensures sample >= LATENCY_FLOOR ==> l == sample
    ensures sample < LATENCY_FLOOR ==> l == LATENCY_FLOOR
  {
    if sample < LATENCY_FLOOR then LATENCY_FLOOR else sample
  }

  /** The constant-step update of estimate `v` towards `reward`: the new
      value lies between the two and is `1 - ALPHA` times as far from the
      reward as `v` was. */
  function MovingAverage(v: real, reward: real): (v': real)
    ensures v' - reward == (1.0 - ALPHA) * (v - reward)
    ensures v <= reward ==> v <= v' <= reward
    ensures reward <= v ==> reward <= v' <= v
  {
    v + ALPHA * (reward - v)
  }

  /** `request_count++` on the chosen server. */
  function RecordRequest(s: seq<Server>, chosen: int): seq<Server>
    requires 0 <= chosen < |s|
  {
    s[chosen := s[chosen].(requestCount := s[chosen].requestCount + 1)]
  }

  /** The chosen server's estimate moves towards the reward `-observed`. */
  function UpdateEstimate(s: seq<Server>, chosen: int, observed: real): seq<Server>
    requires 0 <= chosen < |s|
  {
    s[chosen := s[chosen].(estimatedReward := MovingAverage(s[chosen].estimatedReward, -observed))]
  }

  /** Every hidden mean moves by its own offset. */
  function Drift(s: seq<Server>, deltas: seq<real>): seq<Server>
    requires |deltas| == |s|
  {
    seq(|s|, i requires 0 <= i < |s| => s[i].(trueMeanLatency := s[i].trueMeanLatency + deltas[i]))
  }

  /** The drift offsets, one Gaussian deviate per server. */
  function DriftDeltas(drift: seq<UniformPair>, transform: (real, real) --> real): (deltas: seq<real>)
    requires BoxMullerDomain(transform)
    requires forall i :: 0 <= i < |drift| ==> UnitDraw(drift[i].u1)
    ensures |deltas| == |drift|
  {
    seq(|drift|, i requires 0 <= i < |drift| => RandGaussian(0.0, DRIFT_STDDEV, drift[i], transform))
  }

  /** One round's update of the pool, given the chosen server, its observed
      latency and the drift offsets. Only the chosen server's counter and
      estimate change; every hidden mean drifts; no identity changes. */
  function AfterRound(s: seq<Server>, chosen: int, observed: real, deltas: seq<real>): (t: seq<Server>)
    requires 0 <= chosen < |s| && |deltas| == |s|
    ensures |t| == |s|
    ensures forall i :: 0 <= i < |s| ==>
              t[i].id == s[i].id && t[i].trueMeanLatency == s[i].trueMeanLatency + deltas[i]
    ensures t[chosen].requestCount == s[chosen].requestCount + 1
    ensures t[chosen].estimatedReward == MovingAverage(s[chosen].estimatedReward, -observed)
    ensures forall i :: 0 <= i < |s| && i != chosen ==>
              t[i].requestCount == s[i].requestCount && t[i].estimatedReward == s[i].estimatedReward
  {
    Drift(UpdateEstimate(RecordRequest(s, chosen), chosen, observed), deltas)
  }

  /** A round adds exactly one to the total of the request counters. */
  lemma RoundConservesRequests(s: seq<Server>, chosen: int, observed: real, deltas: seq<real>)
    requires 0 <= chosen < |s| && |deltas| == |s|
    ensures TotalRequests(AfterRound(s, chosen, observed, deltas)) == TotalRequests(s) + 1
  {
    TotalRequestsPointwise(s, AfterRound(s, chosen, observed, deltas), chosen, 1);
  }

  /** A round whose observation respects the floor keeps the pool consistent
      and counts one more round. */
  lemma RoundPreservesConsistency(s: seq<Server>, rounds: int, chosen: int, observed: real, deltas: seq<real>)
    requires Consistent(s, rounds)
    requires 0 <= chosen < |s| && |deltas| == |s|
    requires observed >= LATENCY_FLOOR
    ensures Consistent(AfterRound(s, chosen, observed, deltas), rounds + 1)
  {
    RoundConservesRequests(s, chosen, observed, deltas);
    var v := s[chosen].estimatedReward;
    assert v <= 0.0;
    assert MovingAverage(v, -observed) == (1.0 - ALPHA) * v - ALPHA * observed;
  }

  /** From an estimate of 0 (a server's first request) the new estimate is
      `ALPHA` times the reward. */
  lemma FirstUpdateFromZero(s: seq<Server>, chosen: int, observed: real, deltas: seq<real>)
    requires 0 <= chosen < |s| && |deltas| == |s|
    requires s[chosen].estimatedReward == 0.0
    ensures AfterRound(s, chosen, observed, deltas)[chosen].estimatedReward == ALPHA * -observed
  {
  }

  /** The draws one round consumes, in order: the selection draw, the two
      uniforms of the observation, and two uniforms per server for the drift. */
  datatype RoundDraws = RoundDraws(selection: real, observation: UniformPair, drift: seq<UniformPair>)

  /** A round's draws: one drift pair per server, and every first draw of a
      pair in [0, 1], as `rand() / RAND_MAX` gives. */
  ghost predicate ValidRound(d: RoundDraws)
  {
    && |d.drift| == K_SERVERS
    && UnitDraw(d.observation.u1)
    && forall i :: 0 <= i < |d.drift| ==> UnitDraw(d.drift[i].u1)
  }

  ghost predicate WellFormedDraws(rounds: seq<RoundDraws>)
  {
    forall j :: 0 <= j < |rounds| ==> ValidRound(rounds[j])
  }

  /** The pool and the accumulated latency between rounds. */
  datatype Progress = Progress(servers: seq<Server>, totalLatency: real)

  /** One iteration of the request loop: softmax selection, the clamped
      observation of the chosen server's hidden mean, then the update. */
  function Step(o: Progress, d: RoundDraws, exp: real -> real, transform: (real, real) --> real): (o': Progress)
    requires |o.servers| == K_SERVERS && ValidRound(d)
    requires ExpLaw(exp) && BoxMullerDomain(transform)
    ensures |o'.servers| == K_SERVERS
    ensures o'.totalLatency >= o.totalLatency + LATENCY_FLOOR
  {
    var chosen := RouletteWalk(Probabilities(o.servers, K_SERVERS, TAU, exp), d.selection, 0);
    var observed := ObservedLatency(
      RandGaussian(o.servers[chosen].trueMeanLatency, OBSERVATION_STDDEV, d.observation, transform));
    Progress(AfterRound(o.servers, chosen, observed, DriftDeltas(d.drift, transform)),
             o.totalLatency + observed)
  }

  /** The state after running the rounds of `rounds` in order from `start`. */
  function Simulate(start: Progress, rounds: seq<RoundDraws>, exp: real -> real,
                    transform: (real, real) --> real): (o: Progress)
    requires |start.servers| == K_SERVERS && WellFormedDraws(rounds)
    requires ExpLaw(exp) && BoxMullerDomain(transform)
    ensures |o.servers| == K_SERVERS
    decreases |rounds|
  {
    if |rounds| == 0 then start
    else Step(Simulate(start, rounds[..|rounds| - 1], exp, transform), rounds[|rounds| - 1], exp, transform)
  }

  /** Running the first `n + 1` rounds is running the first `n`, then round `n`. */
  lemma SimulateOneMore(start: Progress, rounds: seq<RoundDraws>, n: int, exp: real -> real,
                        transform: (real, real) --> real)
    requires |start.servers| == K_SERVERS && WellFormedDraws(rounds) && 0 <= n < |rounds|
    requires ExpLaw(exp) && BoxMullerDomain(transform)
    ensures Simulate(start, rounds[..n + 1], exp, transform)
            == Step(Simulate(start, rounds[..n], exp, transform), rounds[n], exp, transform)
  {
    assert rounds[..n + 1][..n] == rounds[..n];
  }

  /** After any number of rounds the pool is consistent with that many rounds
      (in particular the counters sum to it) and the accumulated latency has
      grown by at least the floor per round. */
  lemma {:induction false} SimulationInvariant(start: Progress, rounds: seq<RoundDraws>, done: int,
                                               exp: real -> real, transform: (real, real) --> real)
    requires Consistent(start.servers, done) && WellFormedDraws(rounds)
    requires ExpLaw(exp) && BoxMullerDomain(transform)
    ensures Consistent(Simulate(start, rounds, exp, transform).servers, done + |rounds|)
    ensures Simulate(start, rounds, exp, transform).totalLatency >= start.totalLatency + |rounds| as real * LATENCY_FLOOR
  {
    if |rounds| > 0 {
      var n := |rounds| - 1;
      SimulationInvariant(start, rounds[..n], done, exp, transform);
      var o := Simulate(start, rounds[..n], exp, transform);
      var d := rounds[n];
      var chosen := RouletteWalk(Probabilities(o.servers, K_SERVERS, TAU, exp), d.selection, 0);
      var observed := ObservedLatency(
        RandGaussian(o.servers[chosen].trueMeanLatency, OBSERVATION_STDDEV, d.observation, transform));
      RoundPreservesConsistency(o.servers, done + n, chosen, observed, DriftDeltas(d.drift, transform));
    }
  }

  /** The initialisation loop of `main`. */
  method InitServers(servers: array<Server>, meanDraws: seq<nat>)
    requires servers.Length == K_SERVERS && |meanDraws| == K_SERVERS
    modifies servers
    ensures servers[..] == InitialServers(meanDraws)
  {
    var i := 0;
    while i < K_SERVERS
      invariant 0 <= i <= K_SERVERS
      invariant forall j :: 0 <= j < i ==> servers[j] == InitialServers(meanDraws)[j]
    {
      servers[i] := Server(i, 50.0 + (meanDraws[i] % 50) as real, 0.0, 0);
      i := i + 1;
    }
  }

  /** The body of the request loop after selection: observe the chosen
      server, clamp, count the request, update its estimate, then drift
      every server. Returns the observed latency. */
  method PlayRound(servers: array<Server>, chosen: int, observation: UniformPair, drift: seq<UniformPair>,
                   transform: (real, real) --> real)
    returns (observedLatency: real)
    requires servers.Length == K_SERVERS && 0 <= chosen < K_SERVERS && |drift| == K_SERVERS
    requires UnitDraw(observation.u1) && forall i :: 0 <= i < |drift| ==> UnitDraw(drift[i].u1)
    requires BoxMullerDomain(transform)
    modifies servers
    ensures observedLatency
            == ObservedLatency(RandGaussian(old(servers[chosen].trueMeanLatency), OBSERVATION_STDDEV, observation, transform))
    ensures servers[..] == AfterRound(old(servers[..]), chosen, observedLatency, DriftDeltas(drift, transform))
  {
    observedLatency := RandGaussian(servers[chosen].trueMeanLatency, OBSERVATION_STDDEV, observation, transform);
    if observedLatency < LATENCY_FLOOR {
      observedLatency := LATENCY_FLOOR;
    }
    servers[chosen] := servers[chosen].(requestCount := servers[chosen].requestCount + 1);
    var reward := -observedLatency;
    servers[chosen] := servers[chosen].(estimatedReward :=
      servers[chosen].estimatedReward + ALPHA * (reward - servers[chosen].estimatedReward));

    ghost var updated := servers[..];
    assert updated == UpdateEstimate(RecordRequest(old(servers[..]), chosen), chosen, observedLatency);
    ghost var deltas := DriftDeltas(drift, transform);
    var i := 0;
    while i < K_SERVERS
      invariant 0 <= i <= K_SERVERS
      invariant forall j :: 0 <= j < i ==>
                  servers[j] == updated[j].(trueMeanLatency := updated[j].trueMeanLatency + deltas[j])
      invariant forall j :: i <= j < K_SERVERS ==> servers[j] == updated[j]
    {
      servers[i] := servers[i].(trueMeanLatency :=
        servers[i].trueMeanLatency + RandGaussian(0.0, DRIFT_STDDEV, drift[i], transform));
      i := i + 1;
    }
    assert servers[..] == Drift(updated, deltas);
  }

  /** One iteration of the request loop of `main`: select a server by
      softmax, play the round on it and add its latency to the total. */
  method ServeRequest(servers: array<Server>, totalLatency: real, d: RoundDraws, exp: real -> real,
                      transform: (real, real) --> real)
    returns (newTotal: real)
    requires servers.Length == K_SERVERS && ValidRound(d)
    requires ExpLaw(exp) && BoxMullerDomain(transform)
    modifies servers
    ensures Progress(servers[..], newTotal) == Step(Progress(old(servers[..]), totalLatency), d, exp, transform)
  {
    var chosen := SelectServerSoftmax(servers, K_SERVERS, TAU, exp, d.selection);
    var observedLatency := PlayRound(servers, chosen, d.observation, d.drift, transform);
    newTotal := totalLatency + observedLatency;
  }

  /** The request loop of `main`: NUM_REQUESTS iterations over the pool,
      accumulating the latency from 0. */
  method RunRequests(servers: array<Server>, rounds: seq<RoundDraws>, exp: real -> real,
                     transform: (real, real) --> real)
    returns (totalLatency: real)
    requires servers.Length == K_SERVERS
    requires |rounds| == NUM_REQUESTS && WellFormedDraws(rounds)
    requires ExpLaw(exp) && BoxMullerDomain(transform)
    modifies servers
    ensures Progress(servers[..], totalLatency) == Simulate(Progress(old(servers[..]), 0.0), rounds, exp, transform)
  {
    ghost var start := Progress(servers[..], 0.0);
    totalLatency := 0.0;
    var step := 0;
    while step < NUM_REQUESTS
      invariant 0 <= step <= NUM_REQUESTS
      invariant Progress(servers[..], totalLatency) == Simulate(start, rounds[..step], exp, transform)
    {
      totalLatency := ServeRequest(servers, totalLatency, rounds[step], exp, transform);
      SimulateOneMore(start, rounds, step, exp, transform);
      step := step + 1;
    }
    assert rounds[..NUM_REQUESTS] == rounds;
  }

  /** `main` without its clock and its report: initialise the pool, then run
      the request loop. The result is the functional model's, so the
      counters sum to the number of requests and the mean latency is at
      least the floor. */
  method RunSimulation(meanDraws: seq<nat>, rounds: seq<RoundDraws>, exp: real -> real,
                       transform: (real, real) --> real)
    returns (servers: array<Server>, totalLatency: real)
    requires |meanDraws| == K_SERVERS
    requires |rounds| == NUM_REQUESTS && WellFormedDraws(rounds)
    requires ExpLaw(exp) && BoxMullerDomain(transform)
    ensures fresh(servers)
    ensures Progress(servers[..], totalLatency)
            == Simulate(Progress(InitialServers(meanDraws), 0.0), rounds, exp, transform)
    ensures Consistent(servers[..], NUM_REQUESTS)
    ensures totalLatency / NUM_REQUESTS as real >= LATENCY_FLOOR
  {
    servers := new Server[K_SERVERS];
    InitServers(servers, meanDraws);
    totalLatency := RunRequests(servers, rounds, exp, transform);
    InitialServersConsistent(meanDraws);
    SimulationInvariant(Progress(InitialServers(meanDraws), 0.0), rounds, 0, exp, transform);
  }
}
