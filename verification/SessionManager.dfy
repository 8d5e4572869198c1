/**
  The session object: limiters and breakers kept per host and created on first use, and the network
  metrics, updated in place around each request.
*/
module SessionManager {
  import B = CircuitBreaker
  import L = RateLimiter

  class SessionManager {
    const limiterParams: L.Params
    const breakerParams: B.Params
    var limiters: map<string, L.Limiter>
    var breakers: map<string, B.Breaker>

    /** Every host has its own limiter and its own breaker. */
    ghost predicate Valid()
      reads this, limiters.Values, breakers.Values
    {
      && L.ValidParams(limiterParams) && B.ValidParams(breakerParams)
      && (forall h | h in limiters :: limiters[h].Valid() && limiters[h].p == limiterParams)
      && (forall h | h in breakers :: breakers[h].Valid() && breakers[h].p == breakerParams)
      && (forall g, h | g in limiters && h in limiters && g != h :: limiters[g] != limiters[h])
      && (forall g, h | g in breakers && h in breakers && g != h :: breakers[g] != breakers[h])
    }

    constructor (limiterParams: L.Params, breakerParams: B.Params)
      requires L.ValidParams(limiterParams) && B.ValidParams(breakerParams)
      ensures Valid() && limiters == map[] && breakers == map[]
    {
      this.limiterParams, this.breakerParams := limiterParams, breakerParams;
      limiters, breakers := map[], map[];
    }

    /** The host's limiter: the one it already has, or a new one with a full bucket. */
    method RateLimiterFor(host: string, now: real) returns (limiter: L.Limiter)
      requires Valid()
      modifies this`limiters
      ensures Valid() && limiters == old(limiters)[host := limiter]
      ensures host in old(limiters) ==> limiter == old(limiters)[host]
      ensures host !in old(limiters) ==> fresh(limiter) && limiter.start == now && limiter.log == []
    {
      if host in limiters {
        limiter := limiters[host];
      } else {
        limiter := new L.Limiter(limiterParams, now);
        limiters := limiters[host := limiter];
      }
      assert limiters == old(limiters)[host := limiter];
    }

    /** The host's breaker: the one it already has, or a new closed one. */
    method CircuitBreakerFor(host: string) returns (breaker: B.Breaker)
      requires Valid()
      modifies this`breakers
      ensures Valid() && breakers == old(breakers)[host := breaker]
      ensures host in old(breakers) ==> breaker == old(breakers)[host]
      ensures host !in old(breakers) ==> fresh(breaker) && breaker.log == []
    {
      if host in breakers {
        breaker := breakers[host];
      } else {
        breaker := new B.Breaker(breakerParams);
        breakers := breakers[host := breaker];
      }
      assert breakers == old(breakers)[host := breaker];
    }

    /** A check of one host's limiter leaves the limiter of every other host as it was. */
    method CheckLimiter(host: string, id: nat, now: real, want: real) returns (granted: bool, wait: real)
      requires Valid() && host in limiters
      requires limiters[host].updatedAt <= now && 0.0 <= want <= limiterParams.capacity
      modifies limiters[host]
      ensures Valid()
      ensures limiters[host].log == old(limiters[host].log) + [L.Check(id, now, want)]
      ensures forall h | h in limiters && h != host ::
        limiters[h].log == old(limiters[h].log) && limiters[h].tokens == old(limiters[h].tokens)
    {
      granted, wait := limiters[host].CheckOnce(id, now, want);
    }

    /** A failure of one host leaves the breaker of every other host as it was. */
    method FailCall(host: string, ghost id: nat, now: real)
      requires Valid() && host in breakers && breakers[host].Now(now)
      modifies breakers[host]
      ensures Valid()
      ensures breakers[host].Contents() == B.OnFailure(breakerParams, old(breakers[host].Contents()), now)
      ensures forall h | h in breakers && h != host ::
        breakers[h].log == old(breakers[h].log) && breakers[h].Contents() == old(breakers[h].Contents())
    {
      breakers[host].CallFailed(id, now);
    }
  }
}
