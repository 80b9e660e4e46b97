/**
 * The API rate limiter (src/middleware.ts): a per-client history of request
 * times, kept in a module-level map, admits at most 100 requests in any
 * minute and answers the next one with 429 Too Many Requests (RFC 6585,
 * section 4) and a Retry-After of 60 seconds. The clock is the `now`
 * argument, and the 1% chance of pruning is the `pruneRoll` argument.
 */
module RateLimiter {
  import opened Wrappers
  import opened Text

  const WindowMs: int := 60 * 1000
  const MaxRequests: int := 100

  /** `Math.ceil(WINDOW_MS / 1000)`. */
  function RetryAfter(): (s: int)
    ensures s == 60
  {
    CeilDiv(WindowMs, 1000)
  }

  datatype Response = Next | TooManyRequests(status: int, error: string, retryAfter: int)

  /** `pathname.startsWith('/api')`. */
  function IsApiPath(pathname: string): (api: bool)
    ensures api <==> |pathname| >= 4 && pathname[..4] == "/api"
  {
    "/api" <= pathname
  }

  /** `x-forwarded-for || x-real-ip || 'anonymous'`: the first header that is present and non-empty. */
  function ClientKey(forwardedFor: Option<string>, realIp: Option<string>): (key: string)
    ensures TruthyString(forwardedFor) ==> key == forwardedFor.value
    ensures !TruthyString(forwardedFor) && TruthyString(realIp) ==> key == realIp.value
    ensures !TruthyString(forwardedFor) && !TruthyString(realIp) ==> key == "anonymous"
  {
    OrDefault(forwardedFor, OrDefault(realIp, "anonymous"))
  }

  /** The timestamps younger than `age` milliseconds at `now`, in order (`filter(t => now - t < age)`). */
  function Younger(ts: seq<int>, now: int, age: int): (r: seq<int>)
    ensures |r| <= |ts|
    ensures forall i :: 0 <= i < |r| ==> now - r[i] < age
    ensures forall t :: t in ts && now - t < age ==> t in r
    ensures forall t :: t in r ==> t in ts
    decreases |ts|
  {
    if |ts| == 0 then []
    else
      var rest := Younger(ts[1..], now, age);
      assert forall t :: t in ts ==> t == ts[0] || t in ts[1..];
      if now - ts[0] < age then [ts[0]] + rest else rest
  }

  /** Filtering twice with the same bound changes nothing the second time. */
  lemma {:induction false} YoungerIdempotent(ts: seq<int>, now: int, age: int)
    ensures Younger(Younger(ts, now, age), now, age) == Younger(ts, now, age)
    decreases |ts|
  {
    if |ts| > 0 {
      YoungerIdempotent(ts[1..], now, age);
    }
  }

  /** A narrower window keeps a sub-list of what a wider one keeps. */
  lemma {:induction false} YoungerNarrower(ts: seq<int>, now: int, a1: int, a2: int)
    requires a1 <= a2
    ensures |Younger(ts, now, a1)| <= |Younger(ts, now, a2)|
    decreases |ts|
  {
    if |ts| > 0 {
      YoungerNarrower(ts[1..], now, a1, a2);
    }
  }

  /** The timestamps later than `cutoff`, in order (`filter(t => t > cutoff)`). */
  function After(ts: seq<int>, cutoff: int): (r: seq<int>)
    ensures |r| <= |ts|
    ensures forall i :: 0 <= i < |r| ==> r[i] > cutoff
    ensures forall t :: t in ts && t > cutoff ==> t in r
    decreases |ts|
  {
    if |ts| == 0 then []
    else
      var rest := After(ts[1..], cutoff);
      assert forall t :: t in ts ==> t == ts[0] || t in ts[1..];
      if ts[0] > cutoff then [ts[0]] + rest else rest
  }

  /** The map after pruning at `now`: histories cut to the last five windows, and empty ones deleted. */
  function Pruned(requests: map<string, seq<int>>, now: int): (r: map<string, seq<int>>)
    ensures forall k :: k in r <==> k in requests && |After(requests[k], now - 5 * WindowMs)| > 0
    ensures forall k :: k in r ==> r[k] == After(requests[k], now - 5 * WindowMs)
  {
    map k | k in requests && |After(requests[k], now - 5 * WindowMs)| > 0 :: After(requests[k], now - 5 * WindowMs)
  }

  class Limiter {
    var requests: map<string, seq<int>>

    /** No client ever holds more than 100 stored timestamps. */
    ghost predicate Valid()
      reads this
    {
      forall k :: k in requests ==> |requests[k]| <= MaxRequests
    }

    constructor ()
      ensures requests == map[] && Valid()
    {
      requests := map[];
    }

    /** The client's requests of the last minute (`(requests.get(ip) || []).filter(...)`). */
    function Recent(key: string, now: int): (r: seq<int>)
      reads this
      ensures key !in requests ==> r == []
    {
      Younger(if key in requests then requests[key] else [], now, WindowMs)
    }

    /** The prune step: a `forEach` over the map that cuts or deletes each entry. */
    method Prune(now: int)
      requires Valid()
      modifies this
      ensures Valid()
      ensures requests == Pruned(old(requests), now)
    {
      requests := Pruned(requests, now);
    }

    /**
     * `middleware(request)`. Only API paths are counted. A client with 100
     * requests in the last minute is refused and its history is left as it
     * was; otherwise the history becomes its last minute plus `now`. No
     * other client's history changes, except through the prune step.
     */
    method Handle(pathname: string, forwardedFor: Option<string>, realIp: Option<string>, now: int, pruneRoll: bool)
      returns (r: Response)
      requires Valid()
      modifies this
      ensures Valid()
      ensures !IsApiPath(pathname) ==> r == Next && requests == old(requests)
      ensures IsApiPath(pathname) ==>
        var key := ClientKey(forwardedFor, realIp);
        var recent := old(Recent(key, now));
        && (r.TooManyRequests? <==> |recent| >= MaxRequests)
        && (r.TooManyRequests? ==> r == TooManyRequests(429, "Too many requests. Please try again later.", 60) && requests == old(requests))
        && (r == Next && !pruneRoll ==> requests == old(requests)[key := recent + [now]])
        && (r == Next && pruneRoll ==> requests == Pruned(old(requests)[key := recent + [now]], now))
      ensures r.Next? && !pruneRoll ==> forall k :: k != ClientKey(forwardedFor, realIp) ==>
        (k in requests <==> k in old(requests)) && (k in requests ==> requests[k] == old(requests)[k])
    {
      if !IsApiPath(pathname) {
        return Next;
      }
      var key := ClientKey(forwardedFor, realIp);
      var recent := Recent(key, now);
      if |recent| >= MaxRequests {
        return TooManyRequests(429, "Too many requests. Please try again later.", RetryAfter());
      }
      requests := requests[key := recent + [now]];
      if pruneRoll {
        Prune(now);
      }
      return Next;
    }
  }

  /** A client's 101st request within one minute is refused, whatever happened before. */
  method HundredAndFirst(history: seq<int>, now: int) returns (r: Response)
    requires |history| == MaxRequests
    requires forall i :: 0 <= i < |history| ==> now - WindowMs < history[i] <= now
    ensures r == TooManyRequests(429, "Too many requests. Please try again later.", 60)
  {
    var limiter := new Limiter();
    limiter.requests := map["anonymous" := history];
    assert Younger(history, now, WindowMs) == history by {
      YoungerKeepsAll(history, now, WindowMs);
    }
    r := limiter.Handle("/api/magazines", None, None, now, false);
  }

  /** A history that lies wholly inside the window passes the filter whole. */
  lemma {:induction false} YoungerKeepsAll(ts: seq<int>, now: int, age: int)
    requires forall i :: 0 <= i < |ts| ==> now - ts[i] < age
    ensures Younger(ts, now, age) == ts
    decreases |ts|
  {
    if |ts| > 0 {
      YoungerKeepsAll(ts[1..], now, age);
      assert ts == [ts[0]] + ts[1..];
    }
  }
}
