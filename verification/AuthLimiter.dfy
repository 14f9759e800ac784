/** The per-address rate limiter of the auth endpoints (apps/app/server/ratelimit.go): a token bucket
    per address, and a sweep that forgets addresses not seen for ten minutes. Times are in seconds. */
module AuthLimiter {
  import opened Names

  const BURST: real := 10.0
  const RATE: real := 1.0           // tokens per second
  const FORGET_AFTER: real := 600.0

  datatype Bucket = Bucket(tokens: real, last: real)

  datatype IpLimiter = IpLimiter(limiter: Bucket, lastSeen: real)

  function Fresh(now: real): Bucket {
    Bucket(BURST, now)
  }

  function Available(b: Bucket, now: real): real {
    var tokens := b.tokens + (now - b.last) * RATE;
    if tokens > BURST then BURST else tokens
  }

  /** The limiter's Allow: take a token if there is a whole one, otherwise change nothing. */
  predicate Allows(b: Bucket, now: real) {
    Available(b, now) >= 1.0
  }

  function AfterAllow(b: Bucket, now: real): Bucket {
    if Allows(b, now) then Bucket(Available(b, now) - 1.0, now) else b
  }

  type Limiters = map<Text, IpLimiter>

  function LimiterOf(m: Limiters, ip: Text, now: real): Bucket {
    if ip in m then m[ip].limiter else Fresh(now)
  }

  function Requested(m: Limiters, ip: Text, now: real): Limiters {
    m[ip := IpLimiter(AfterAllow(LimiterOf(m, ip, now), now), now)]
  }

  function Swept(m: Limiters, now: real): Limiters {
    map ip | ip in m && m[ip].lastSeen >= now - FORGET_AFTER :: m[ip]
  }

  class AuthLimiters {
    var limiters: Limiters

    constructor ()
      ensures limiters == map[]
    {
      limiters := map[];
    }

    method RateLimitAuth(ip: Text, now: real) returns (allowed: bool)
      modifies this
      ensures allowed <==> Allows(LimiterOf(old(limiters), ip, now), now)
      ensures limiters == Requested(old(limiters), ip, now)
      ensures ip !in old(limiters) ==> allowed && limiters == old(limiters)[ip := IpLimiter(Bucket(9.0, now), now)]
      ensures ip in old(limiters) ==>
                var b := old(limiters)[ip].limiter;
                var tokens := if b.tokens + (now - b.last) > 10.0 then 10.0 else b.tokens + (now - b.last);
                && (allowed <==> tokens >= 1.0)
                && limiters == old(limiters)[ip := IpLimiter(if allowed then Bucket(tokens - 1.0, now) else b, now)]
    {
      var il := if ip in limiters then limiters[ip] else IpLimiter(Fresh(now), now);
      var tokens := il.limiter.tokens + (now - il.limiter.last) * RATE;
      if tokens > BURST {
        tokens := BURST;
      }
      allowed := tokens >= 1.0;
      var bucket := if allowed then Bucket(tokens - 1.0, now) else il.limiter;
      limiters := limiters[ip := IpLimiter(bucket, now)];
    }

    /** One round of cleanupAuthLimiters. */
    method Sweep(now: real)
      modifies this
      ensures limiters == Swept(old(limiters), now)
      ensures limiters == map ip | ip in old(limiters) && now - old(limiters)[ip].lastSeen <= 600.0 :: old(limiters)[ip]
    {
      var cutoff := now - FORGET_AFTER;
      var todo := limiters.Keys;
      while todo != {}
        invariant todo <= old(limiters).Keys
        invariant limiters == map ip | ip in old(limiters)
                                      && (ip in todo || old(limiters)[ip].lastSeen >= cutoff) :: old(limiters)[ip]
        decreases |todo|
      {
        var ip :| ip in todo;
        if limiters[ip].lastSeen < cutoff {
          limiters := limiters - {ip};
        }
        todo := todo - {ip};
      }
    }
  }

  ///////////////////////////// Runs, with and without sweeps /////////////////////////////

  datatype Event = Request(ip: Text, at: real) | Sweep(at: real)

  ghost predicate InOrder(events: seq<Event>) {
    forall i, j | 0 <= i <= j < |events| :: events[i].at <= events[j].at
  }

  /** The limiters before event k. */
  ghost function Before(events: seq<Event>, k: nat): Limiters
    requires k <= |events|
  {
    if k == 0 then map[]
    else match events[k - 1]
      case Request(ip, at) => Requested(Before(events, k - 1), ip, at)
      case Sweep(at) => Swept(Before(events, k - 1), at)
  }

  /** The same with every limiter kept for ever. */
  ghost function Forever(events: seq<Event>, k: nat): Limiters
    requires k <= |events|
  {
    if k == 0 then map[]
    else match events[k - 1]
      case Request(ip, at) => Requested(Forever(events, k - 1), ip, at)
      case Sweep(_) => Forever(events, k - 1)
  }

  ghost predicate Allowed(m: Limiters, e: Event) {
    e.Request? && Allows(LimiterOf(m, e.ip, e.at), e.at)
  }

  /** At time t a forgotten limiter is one that would be full again. */
  ghost predicate Agree(m: Limiters, f: Limiters, t: real) {
    && (forall ip | ip in m :: ip in f && m[ip] == f[ip])
    && (forall ip | ip in f :: f[ip].limiter.tokens >= 0.0 && f[ip].limiter.last <= f[ip].lastSeen <= t)
    && (forall ip | ip in f && ip !in m :: f[ip].limiter.last + BURST <= t)
  }

  lemma AgreeRequest(m: Limiters, f: Limiters, t: real, ip: Text, at: real)
    requires Agree(m, f, t) && t <= at
    ensures Allows(LimiterOf(m, ip, at), at) <==> Allows(LimiterOf(f, ip, at), at)
    ensures Agree(Requested(m, ip, at), Requested(f, ip, at), at)
  {
    if ip in f && ip !in m {
      assert Available(f[ip].limiter, at) == BURST == Available(Fresh(at), at);
    }
  }

  lemma AgreeSweep(m: Limiters, f: Limiters, t: real, at: real)
    requires Agree(m, f, t) && t <= at
    ensures Agree(Swept(m, at), f, at)
  {
  }

  lemma {:induction false} RunsAgree(events: seq<Event>, k: nat, t: real)
    requires InOrder(events) && k <= |events|
    requires if k == 0 then true else t >= events[k - 1].at
    ensures Agree(Before(events, k), Forever(events, k), t)
  {
    if k > 0 {
      var at := events[k - 1].at;
      RunsAgree(events, k - 1, at);
      match events[k - 1]
      case Request(ip, _) => AgreeRequest(Before(events, k - 1), Forever(events, k - 1), at, ip, at);
      case Sweep(_) => AgreeSweep(Before(events, k - 1), Forever(events, k - 1), at, at);
    }
  }

  /** Eviction is invisible: every request is answered as if nothing were ever forgotten. */
  lemma EvictionIsInvisible(events: seq<Event>, k: nat)
    requires InOrder(events) && k < |events|
    ensures Allowed(Before(events, k), events[k]) <==> Allowed(Forever(events, k), events[k])
  {
    var at := events[k].at;
    RunsAgree(events, k, at);
    if events[k].Request? {
      AgreeRequest(Before(events, k), Forever(events, k), at, events[k].ip, at);
    }
  }

  ghost predicate Accepted(events: seq<Event>, ip: Text, k: nat)
    requires k < |events|
  {
    events[k].Request? && events[k].ip == ip && Allowed(Before(events, k), events[k])
  }

  /** How many of the requests of one address in events[i..k] went through. */
  ghost function Accepts(events: seq<Event>, ip: Text, i: nat, k: nat): nat
    requires i <= k <= |events|
  {
    if k == i then 0
    else Accepts(events, ip, i, k - 1) + (if Accepted(events, ip, k - 1) then 1 else 0)
  }

  ghost function TokensAt(f: Limiters, ip: Text, t: real): real {
    Available(LimiterOf(f, ip, t), t)
  }

  lemma TokensStep(f: Limiters, e: Event, ip: Text, t: real, u: real)
    requires t <= e.at <= u && (ip in f ==> f[ip].limiter.tokens >= 0.0 && f[ip].limiter.last <= t)
    ensures var f' := if e.Request? then Requested(f, e.ip, e.at) else f;
            var taken := if e.Request? && e.ip == ip && Allowed(f, e) then 1.0 else 0.0;
            0.0 <= TokensAt(f', ip, u) <= TokensAt(f, ip, t) + (u - t) * RATE - taken
  {
  }

  /** What one event does to the tokens of an address, seen from time u on. */
  lemma SpentStep(events: seq<Event>, ip: Text, k: nat, u: real)
    requires InOrder(events) && k < |events| && events[k].at <= u
    ensures var taken := if Accepted(events, ip, k) then 1.0 else 0.0;
            && 0.0 <= TokensAt(Forever(events, k + 1), ip, u)
            && TokensAt(Forever(events, k + 1), ip, u) + taken
               <= TokensAt(Forever(events, k), ip, events[k].at) + (u - events[k].at) * RATE
  {
    var e := events[k];
    RunsAgree(events, k, e.at);
    EvictionIsInvisible(events, k);
    TokensStep(Forever(events, k), e, ip, e.at, u);
  }

  /** Tokens spent come out of those there at the start and those earned since. */
  lemma {:induction false} TokensSpent(events: seq<Event>, ip: Text, i: nat, k: nat, s: real, u: real)
    requires InOrder(events) && i <= k <= |events| && s <= u
    requires forall j | 0 <= j < i :: events[j].at <= s
    requires forall j | i <= j < k :: s <= events[j].at <= u
    ensures 0.0 <= TokensAt(Forever(events, k), ip, u)
    ensures TokensAt(Forever(events, k), ip, u) + Accepts(events, ip, i, k) as real
            <= TokensAt(Forever(events, i), ip, s) + (u - s) * RATE
    decreases k
  {
    if k == i {
      RunsAgree(events, k, s);
    } else {
      TokensSpent(events, ip, i, k - 1, s, events[k - 1].at);
      SpentStep(events, ip, k - 1, u);
    }
  }

  /** So no address gets more than 10 + d requests through in any d seconds. */
  lemma AtMostBurstPlusElapsed(events: seq<Event>, ip: Text, i: nat, k: nat, d: real)
    requires InOrder(events) && i < k <= |events|
    requires events[k - 1].at - events[i].at <= d
    ensures Accepts(events, ip, i, k) as real <= BURST + d * RATE
  {
    TokensSpent(events, ip, i, k, events[i].at, events[k - 1].at);
  }

  ///////////////////////////// Who is never refused /////////////////////////////

  ghost function RequestsOf(events: seq<Event>, ip: Text, k: nat): nat
    requires k <= |events|
  {
    if k == 0 then 0
    else RequestsOf(events, ip, k - 1) + (if events[k - 1].Request? && events[k - 1].ip == ip then 1 else 0)
  }

  lemma TokensKept(f: Limiters, e: Event, ip: Text, t: real, u: real)
    requires t <= e.at <= u && (ip in f ==> f[ip].limiter.last <= t)
    ensures var f' := if e.Request? then Requested(f, e.ip, e.at) else f;
            TokensAt(f', ip, u) >= TokensAt(f, ip, t) - (if e.Request? && e.ip == ip then 1.0 else 0.0)
  {
  }

  /** Each request of an address costs it at most one of its ten tokens. */
  lemma {:induction false} TokensLeft(events: seq<Event>, ip: Text, k: nat, t: real)
    requires InOrder(events) && k <= |events|
    requires if k == 0 then true else t >= events[k - 1].at
    ensures TokensAt(Forever(events, k), ip, t) >= 10.0 - RequestsOf(events, ip, k) as real
  {
    if k > 0 {
      var at := events[k - 1].at;
      TokensLeft(events, ip, k - 1, at);
      RunsAgree(events, k - 1, at);
      TokensKept(Forever(events, k - 1), events[k - 1], ip, at, t);
    }
  }

  /** The first ten requests of an address pass, however fast they come. */
  lemma FirstTenPass(events: seq<Event>, k: nat)
    requires InOrder(events) && k < |events| && events[k].Request?
    requires RequestsOf(events, events[k].ip, k) < 10
    ensures Allowed(Before(events, k), events[k])
  {
    TokensLeft(events, events[k].ip, k, events[k].at);
    EvictionIsInvisible(events, k);
  }

  lemma {:induction false} SeenAtARequest(events: seq<Event>, ip: Text, k: nat) returns (j: nat)
    requires k <= |events| && ip in Forever(events, k)
    ensures j < k && events[j].Request? && events[j].ip == ip && events[j].at == Forever(events, k)[ip].lastSeen
  {
    if events[k - 1].Request? && events[k - 1].ip == ip {
      j := k - 1;
    } else {
      j := SeenAtARequest(events, ip, k - 1);
    }
  }

  /** After a second without requests an address is let through, whatever it did before. */
  lemma QuietSecondPasses(events: seq<Event>, k: nat)
    requires InOrder(events) && k < |events| && events[k].Request?
    requires forall j | 0 <= j < k && events[j].Request? && events[j].ip == events[k].ip ::
               events[k].at - events[j].at >= 1.0
    ensures Allowed(Before(events, k), events[k])
  {
    var ip, at := events[k].ip, events[k].at;
    RunsAgree(events, k, at);
    if ip in Forever(events, k) {
      var j := SeenAtARequest(events, ip, k);
    }
    EvictionIsInvisible(events, k);
  }
}
