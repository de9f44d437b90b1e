/** The fixed-window rate limiter: a store from client keys to a request
    count and the time its window ends. One step handles one request at
    time `now` (milliseconds), which is a parameter here. */
module RateLimit {
  import opened Wrappers
  import opened JsMath

  datatype LimitEntry = LimitEntry(count: int, resetAt: int)

  datatype Options = Options(windowMs: int, max: int, keyPrefix: string)

  type Store = map<string, LimitEntry>

  /** The request passes on, or is answered 429 with a `Retry-After` in seconds. */
  datatype Outcome = Allowed | Rejected(retryAfter: int)

  /** `req.ip || req.socket.remoteAddress || 'unknown'`: never empty. */
  function ClientAddress(ip: Option<string>, remoteAddress: Option<string>): (client: string)
    ensures client != ""
    ensures ip.Some? && ip.value != "" ==> client == ip.value
    ensures (ip.None? || ip.value == "") && (remoteAddress.None? || remoteAddress.value == "") ==> client == "unknown"
  {
    if ip.Some? && ip.value != "" then ip.value
    else if remoteAddress.Some? && remoteAddress.value != "" then remoteAddress.value
    else "unknown"
  }

  /** `${keyPrefix}:${ip}`. */
  function StoreKey(keyPrefix: string, client: string): string {
    keyPrefix + ":" + client
  }

  /** Under one prefix, distinct clients never share an entry. */
  lemma StoreKeyInjective(keyPrefix: string, a: string, b: string)
    requires StoreKey(keyPrefix, a) == StoreKey(keyPrefix, b)
    ensures a == b
  {
    var n := |keyPrefix| + 1;
    assert a == StoreKey(keyPrefix, a)[n..];
    assert b == StoreKey(keyPrefix, b)[n..];
  }

  /** `Math.max(1, Math.ceil((resetAt - now) / 1000))`. */
  function RetryAfterSeconds(resetAt: int, now: int): (s: int)
    ensures s >= 1
    ensures resetAt > now ==> (s - 1) * 1000 < resetAt - now <= s * 1000
  {
    var c := CeilDiv(resetAt - now, 1000);
    if c < 1 then 1 else c
  }

  /** A window is live while `now` is before its end. */
  predicate Live(store: Store, key: string, now: int) {
    key in store && store[key].resetAt > now
  }

  /** The handler for one request. */
  function Step(opts: Options, store: Store, key: string, now: int): (Outcome, Store) {
    if !Live(store, key, now) then
      (Allowed, store[key := LimitEntry(1, now + opts.windowMs)])
    else if store[key].count >= opts.max then
      (Rejected(RetryAfterSeconds(store[key].resetAt, now)), store)
    else
      (Allowed, store[key := store[key].(count := store[key].count + 1)])
  }

  /** The three cases of a step, each with what it does to the entry. */
  lemma StepCases(opts: Options, store: Store, key: string, now: int)
    ensures var (outcome, next) := Step(opts, store, key, now);
      && key in next
      && (!Live(store, key, now) ==> outcome == Allowed && next[key] == LimitEntry(1, now + opts.windowMs))
      && (Live(store, key, now) && store[key].count >= opts.max ==>
            outcome.Rejected? && next == store && outcome.retryAfter >= 1)
      && (Live(store, key, now) && store[key].count < opts.max ==>
            outcome == Allowed && next[key] == LimitEntry(store[key].count + 1, store[key].resetAt))
  {
  }

  /** Only the request's own entry can change. */
  lemma StepFrame(opts: Options, store: Store, key: string, now: int, other: string)
    requires other != key
    ensures var next := Step(opts, store, key, now).1;
      (other in next <==> other in store) && (other in store ==> next[other] == store[other])
  {
  }

  /** A request is allowed exactly when its window has ended or has room. */
  lemma AllowedIff(opts: Options, store: Store, key: string, now: int)
    ensures Step(opts, store, key, now).0 == Allowed <==> !Live(store, key, now) || store[key].count < opts.max
  {
  }

  /** Every count lies between 1 and `max`. */
  predicate Bounded(store: Store, max: int) {
    forall k :: k in store ==> 1 <= store[k].count <= max
  }

  /** With `max >= 1`, a step keeps every count within `1..max`. */
  lemma StepKeepsBounded(opts: Options, store: Store, key: string, now: int)
    requires opts.max >= 1 && Bounded(store, opts.max)
    ensures Bounded(Step(opts, store, key, now).1, opts.max)
  {
  }

  /** Handles the requests of one client at the given times, in order. */
  function Run(opts: Options, store: Store, key: string, times: seq<int>): (r: (seq<Outcome>, Store))
    ensures |r.0| == |times|
    decreases |times|
  {
    if times == [] then ([], store)
    else
      var (o, next) := Step(opts, store, key, times[0]);
      var (rest, last) := Run(opts, next, key, times[1..]);
      ([o] + rest, last)
  }

  function AllowedCount(outcomes: seq<Outcome>): nat {
    if outcomes == [] then 0 else (if outcomes[0] == Allowed then 1 else 0) + AllowedCount(outcomes[1..])
  }

  /** While a window stays live, the requests allowed in it never exceed
      the room left in it: `max` minus the count so far. */
  lemma {:induction false} LiveWindowAllowance(opts: Options, store: Store, key: string, times: seq<int>)
    requires key in store && store[key].count <= opts.max
    requires forall i :: 0 <= i < |times| ==> times[i] < store[key].resetAt
    ensures AllowedCount(Run(opts, store, key, times).0) <= opts.max - store[key].count
    ensures var last := Run(opts, store, key, times).1;
      key in last && last[key].resetAt == store[key].resetAt
      && last[key].count == store[key].count + AllowedCount(Run(opts, store, key, times).0)
    decreases |times|
  {
    if times != [] {
      var (o, next) := Step(opts, store, key, times[0]);
      LiveWindowAllowance(opts, next, key, times[1..]);
    }
  }

  /** A request that opens a window is allowed, and at most `max` requests
      in all are allowed before that window ends. */
  lemma AtMostMaxPerWindow(opts: Options, store: Store, key: string, start: int, times: seq<int>)
    requires opts.max >= 1 && !Live(store, key, start)
    requires forall i :: 0 <= i < |times| ==> times[i] < start + opts.windowMs
    ensures Step(opts, store, key, start).0 == Allowed
    ensures 1 + AllowedCount(Run(opts, Step(opts, store, key, start).1, key, times).0) <= opts.max
  {
    LiveWindowAllowance(opts, Step(opts, store, key, start).1, key, times);
  }
}
