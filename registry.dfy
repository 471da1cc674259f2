/** The per-address limiter registry of main.go:141-176: a map from a client
    address to its token-bucket limiter, filled on first use. */
module Registry {

  /** A `*rate.Limiter` of golang.org/x/time/rate. Its token bucket is not
      modelled: a limiter records only the limit and burst it was built with,
      and each construction yields a new object, as rate.NewLimiter allocates
      a new one. */
  class Limiter {
    const limit: real
    const burst: int

    /** rate.NewLimiter(r, b) */
    constructor (r: real, b: int)
      ensures limit == r && burst == b
    {
      limit := r;
      burst := b;
    }
  }

  /** IPRateLimiter (main.go:141-146), without its mutex. */
  class IPRateLimiter {
    var ips: map<string, Limiter>
    const r: real
    const b: int

    /** Every stored limiter was built with the registry's (r, b), and no two
        addresses share a limiter, so clients never draw on each other's bucket. */
    ghost predicate Valid()
      reads this
    {
      && (forall ip | ip in ips :: ips[ip].limit == r && ips[ip].burst == b)
      && (forall ip1, ip2 | ip1 in ips && ip2 in ips && ip1 != ip2 :: ips[ip1] != ips[ip2])
    }

    /** NewIPRateLimiter (main.go:148-155): an empty map and the given policy. */
    constructor (r: real, b: int)
      ensures Valid()
      ensures ips == map[] && this.r == r && this.b == b
    {
      ips := map[];
      this.r := r;
      this.b := b;
    }

    /** AddIP (main.go:158-164): a new limiter is stored under ip whether or
        not ip already had one; every other address keeps its limiter. */
    method AddIP(ip: string) returns (limiter: Limiter)
      requires Valid()
      modifies this
      ensures Valid()
      ensures fresh(limiter) && limiter.limit == r && limiter.burst == b
      ensures ips == old(ips)[ip := limiter]
    {
      limiter := new Limiter(r, b);
      ips := ips[ip := limiter];
    }

    /** GetLimiter (main.go:167-176): the stored limiter if ip has one, and
        the map is then unchanged; otherwise the result of AddIP(ip). */
    method GetLimiter(ip: string) returns (limiter: Limiter)
      requires Valid()
      modifies this
      ensures Valid()
      ensures ip in ips && ips[ip] == limiter
      ensures limiter.limit == r && limiter.burst == b
      ensures ips.Keys == old(ips).Keys + {ip}
      ensures ip in old(ips) ==> ips == old(ips) && limiter == old(ips)[ip]
      ensures ip !in old(ips) ==> fresh(limiter) && ips == old(ips)[ip := limiter]
    {
      if ip !in ips {
        limiter := AddIP(ip);
        return;
      }
      limiter := ips[ip];
    }
  }
}
