/** The server pool of the bandit simulation: its fixed configuration, the
    record kept for each server (one arm of the bandit) and the total of the
    per-server request counters. */
module Servers {

  /** Number of servers in the pool. */
  const K_SERVERS: int := 5
  /** Number of simulated requests (rounds). */
  const NUM_REQUESTS: int := 10000
  /** Softmax temperature. */
  const TAU: real := 0.5
  /** Constant step size of the moving-average estimate update. */
  const ALPHA: real := 0.1

  /** One server: its stable identity, the hidden mean latency that drifts
      every round, the learned reward estimate and how often it was chosen. */
  datatype Server = Server(
    id: int,
    trueMeanLatency: real,
    estimatedReward: real,
    requestCount: int)

  /** The sum of the request counters of all servers in `s`. */
  function TotalRequests(s: seq<Server>): int
  {
    if |s| == 0 then 0 else TotalRequests(s[..|s| - 1]) + s[|s| - 1].requestCount
  }

  /** Two pools whose counters agree everywhere have the same total. */
  lemma {:induction false} TotalRequestsSame(s: seq<Server>, t: seq<Server>)
    requires |s| == |t|
    requires forall i :: 0 <= i < |s| ==> t[i].requestCount == s[i].requestCount
    ensures TotalRequests(t) == TotalRequests(s)
  {
    if |s| > 0 {
      TotalRequestsSame(s[..|s| - 1], t[..|t| - 1]);
    }
  }

  /** Changing one server's counter by `d`, and no other counter, changes the
      total by exactly `d`. */
  lemma {:induction false} TotalRequestsPointwise(s: seq<Server>, t: seq<Server>, c: int, d: int)
    requires |s| == |t| && 0 <= c < |s|
    requires t[c].requestCount == s[c].requestCount + d
    requires forall i :: 0 <= i < |s| && i != c ==> t[i].requestCount == s[i].requestCount
    ensures TotalRequests(t) == TotalRequests(s) + d
  {
    var n := |s|;
    if c == n - 1 {
      TotalRequestsSame(s[..n - 1], t[..n - 1]);
    } else {
      TotalRequestsPointwise(s[..n - 1], t[..n - 1], c, d);
    }
  }

  /** A pool in which no server has been chosen has total zero. */
  lemma {:induction false} TotalRequestsIdle(s: seq<Server>)
    requires forall i :: 0 <= i < |s| ==> s[i].requestCount == 0
    ensures TotalRequests(s) == 0
  {
    if |s| > 0 {
      TotalRequestsIdle(s[..|s| - 1]);
    }
  }
}
