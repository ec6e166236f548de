/**
 * The gateway to the users and auth dependencies
 * (`todos-api/externalApiService.js`).
 *
 * Each dependency is called through its own named breaker.  How a call
 * settles (the dependency's answer, the registered fallback, or a rejection)
 * is decided by the breaker library and the network, so it is an input here:
 * a `Fired` value.  What is modelled is what the service does with it, the
 * fallback records themselves, the breakers registered at start-up, and the
 * failure-injection hook.
 */
module ExternalApi {
  import opened Wrappers
  import opened Json
  import opened Breakers

  const UsersApi: string := "users-api"
  const AuthApi: string := "auth-api"

  /** Number of synthetic `failure` events `SimulateFailure` emits. */
  const SimulatedFailures: nat := 6

  /** The degraded user record returned when the users dependency is unavailable. */
  function UsersFallback(username: string): (r: Record)
    ensures r.Keys == {"username", "name", "email", "fallback"}
    ensures r["username"] == Str(username) && r["name"] == Str("Unknown User")
    ensures r["email"] == Str(username + "@example.com") && r["fallback"] == Bool(true)
  {
    map["username" := Str(username),
        "name" := Str("Unknown User"),
        "email" := Str(username + "@example.com"),
        "fallback" := Bool(true)]
  }

  /** The degraded token check returned when the auth dependency is unavailable. */
  function AuthFallback(token: string): (r: Record)
    ensures r.Keys == {"valid", "fallback", "message"}
    ensures r["valid"] == Bool(false) && r["fallback"] == Bool(true)
    ensures r["message"] == Str("Authentication service unavailable")
  {
    map["valid" := Bool(false),
        "fallback" := Bool(true),
        "message" := Str("Authentication service unavailable")]
  }

  /** Different users get different fallback records. */
  lemma UsersFallbackDistinguishesUsers(a: string, b: string)
    requires a != b
    ensures UsersFallback(a) != UsersFallback(b)
  {
  }

  /** The auth fallback never accepts a token and does not depend on it. */
  lemma AuthFallbackIgnoresToken(a: string, b: string)
    ensures AuthFallback(a) == AuthFallback(b)
    ensures AuthFallback(a)["valid"] == Bool(false)
  {
  }

  /**
   * How `breaker.fire(arg)` settles: with the wrapped call's result, with the
   * registered fallback applied to `arg`, or by rejecting with an error.
   */
  datatype Fired<T> = Succeeded(value: T) | FellBack | Rejected(error: string)

  /** A call that either returns a value or throws an error. */
  datatype Outcome<T> = Returned(value: T) | Threw(error: string)

  /** Returns what the users breaker settles to, rethrowing its error unchanged. */
  function GetUserInfo(username: string, fired: Fired<Record>): (r: Outcome<Record>)
    ensures fired.Succeeded? ==> r == Returned(fired.value)
    ensures fired.FellBack? ==> r == Returned(UsersFallback(username))
    ensures fired.Rejected? ==> r == Threw(fired.error)
  {
    match fired
    case Succeeded(v) => Returned(v)
    case FellBack => Returned(UsersFallback(username))
    case Rejected(e) => Threw(e)
  }

  /** Returns what the auth breaker settles to, rethrowing its error unchanged. */
  function VerifyToken(token: string, fired: Fired<Record>): (r: Outcome<Record>)
    ensures fired.Succeeded? ==> r == Returned(fired.value)
    ensures fired.FellBack? ==> r == Returned(AuthFallback(token))
    ensures fired.Rejected? ==> r == Threw(fired.error)
  {
    match fired
    case Succeeded(v) => Returned(v)
    case FellBack => Returned(AuthFallback(token))
    case Rejected(e) => Threw(e)
  }

  /** A degraded answer from either gateway call is flagged as such. */
  lemma FallbackAnswersAreFlagged(username: string, token: string)
    ensures GetUserInfo(username, FellBack).value["fallback"] == Bool(true)
    ensures VerifyToken(token, FellBack).value["fallback"] == Bool(true)
    ensures VerifyToken(token, FellBack).value["valid"] == Bool(false)
  {
  }

  /** `shouldFail` defaults to true when the argument is missing. */
  function ShouldFail(shouldFail: Option<bool>): (r: bool)
    ensures shouldFail.None? ==> r
    ensures shouldFail.Some? ==> r == shouldFail.value
  {
    shouldFail.GetOr(true)
  }

  class ExternalApiService {
    const registry: CircuitBreakerService

    /**
     * Loading the service registers one breaker per dependency, with the
     * default options, replacing earlier breakers of those names only.
     */
    constructor (registry: CircuitBreakerService)
      modifies registry
      ensures this.registry == registry
      ensures registry.breakers == old(registry.breakers)
        [UsersApi := NewBreaker("callUsersApi", DefaultOptions())]
        [AuthApi := NewBreaker("callAuthApi", DefaultOptions())]
    {
      this.registry := registry;
      new;
      var _ := registry.CreateBreaker(UsersApi, "callUsersApi", map[]);
      var _ := registry.CreateBreaker(AuthApi, "callAuthApi", map[]);
      assert MergeOptions(map[]) == DefaultOptions();
    }

    /** Exactly the registry's stats for every registered breaker. */
    method GetBreakerStats() returns (all: map<string, Stats>)
      ensures all.Keys == registry.breakers.Keys
      ensures forall name :: name in all ==> registry.GetBreakerStats(name) == Some(all[name])
    {
      all := registry.GetAllBreakerStats();
    }

    /**
     * Emits six `failure` events on the breaker registered as `serviceName`
     * when there is one and failing is asked for; otherwise does nothing.
     * No other breaker is touched and no breaker's state is changed here.
     */
    method SimulateFailure(serviceName: string, shouldFail: Option<bool>)
      modifies registry
      ensures serviceName in old(registry.breakers) && ShouldFail(shouldFail) ==>
        var b := old(registry.breakers)[serviceName];
        registry.breakers == old(registry.breakers)[serviceName := b.(failuresEmitted := b.failuresEmitted + SimulatedFailures)]
      ensures serviceName !in old(registry.breakers) || !ShouldFail(shouldFail) ==>
        registry.breakers == old(registry.breakers)
    {
      var breaker := registry.GetBreaker(serviceName);
      if breaker.Some? && shouldFail.GetOr(true) {
        var b := breaker.value;
        for i := 0 to SimulatedFailures
          invariant registry.breakers == old(registry.breakers)[serviceName := b.(failuresEmitted := b.failuresEmitted + i)]
        {
          registry.breakers := registry.breakers[serviceName := registry.breakers[serviceName].EmitFailure()];
        }
      }
    }
  }
}
