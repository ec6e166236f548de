/**
 * The registry of named circuit breakers (`todos-api/circuitBreakerService.js`).
 *
 * The breaker itself belongs to a library whose code is not part of this
 * model, so a `Breaker` is an opaque value: the action it wraps, the options
 * it was built with, its state, and how many `failure` events have been
 * emitted on it.  The library's rolling window and its state transitions are
 * not modelled; nothing here changes a breaker's state.
 */
module Breakers {
  import opened Wrappers

  datatype BreakerState = Closed | Open | HalfOpen

  /** Breaker options: option name to numeric value. */
  type Options = map<string, int>

  /** The defaults every breaker starts from. */
  function DefaultOptions(): (o: Options)
    ensures o.Keys == {"timeout", "errorThresholdPercentage", "resetTimeout",
                       "rollingCountTimeout", "rollingCountBuckets", "volumeThreshold"}
    ensures o["timeout"] == 3000 && o["errorThresholdPercentage"] == 50
    ensures o["resetTimeout"] == 30000 && o["rollingCountTimeout"] == 10000
    ensures o["rollingCountBuckets"] == 10 && o["volumeThreshold"] == 5
  {
    map["timeout" := 3000,
        "errorThresholdPercentage" := 50,
        "resetTimeout" := 30000,
        "rollingCountTimeout" := 10000,
        "rollingCountBuckets" := 10,
        "volumeThreshold" := 5]
  }

  /** `{ ...defaults, ...custom }`: every key of either, the custom value winning. */
  function MergeOptions(custom: Options): (o: Options)
    ensures o.Keys == DefaultOptions().Keys + custom.Keys
    ensures forall k :: k in custom ==> o[k] == custom[k]
    ensures forall k :: k in DefaultOptions() && k !in custom ==> o[k] == DefaultOptions()[k]
  {
    DefaultOptions() + custom
  }

  datatype Breaker = Breaker(action: string, options: Options, state: BreakerState, failuresEmitted: nat) {
    /** The library's `opened`, `halfOpen` and `closed` flags. */
    predicate Opened() { state == Open }
    predicate IsHalfOpen() { state == HalfOpen }
    predicate IsClosed() { state == Closed }

    /** `emit('failure', …)`: listeners are notified; the state is the library's business. */
    function EmitFailure(): (b: Breaker)
      ensures b.failuresEmitted == failuresEmitted + 1
      ensures b.(failuresEmitted := failuresEmitted) == this
    {
      this.(failuresEmitted := failuresEmitted + 1)
    }
  }

  /** A breaker as the library builds it: closed, with no events yet. */
  function NewBreaker(action: string, options: Options): (b: Breaker)
    ensures b.IsClosed() && !b.Opened() && !b.IsHalfOpen()
    ensures b.action == action && b.options == options && b.failuresEmitted == 0
  {
    Breaker(action, options, Closed, 0)
  }

  /** Exactly one of the three flags holds of any breaker. */
  lemma ExactlyOneFlag(b: Breaker)
    ensures b.Opened() || b.IsHalfOpen() || b.IsClosed()
    ensures !(b.Opened() && b.IsHalfOpen()) && !(b.Opened() && b.IsClosed()) && !(b.IsHalfOpen() && b.IsClosed())
  {
  }

  /** What `getBreakerStats` reports for one registered breaker. */
  datatype Stats = Stats(name: string, state: BreakerState, isOpen: bool, isHalfOpen: bool, isClosed: bool)

  class CircuitBreakerService {
    var breakers: map<string, Breaker>

    constructor ()
      ensures breakers == map[]
    {
      breakers := map[];
    }

    /**
     * Builds a breaker from the merged options and registers it under `name`,
     * replacing an earlier breaker of that name and no other entry.
     */
    method CreateBreaker(name: string, action: string, custom: Options) returns (b: Breaker)
      modifies this
      ensures b == NewBreaker(action, MergeOptions(custom))
      ensures breakers == old(breakers)[name := b]
    {
      var finalOptions := MergeOptions(custom);
      b := NewBreaker(action, finalOptions);
      breakers := breakers[name := b];
    }

    /** `breakers.get(name)`, `None` standing for `undefined`. */
    function GetBreaker(name: string): (r: Option<Breaker>)
      reads this
      ensures r.Some? <==> name in breakers
      ensures r.Some? ==> r.value == breakers[name]
    {
      if name in breakers then Some(breakers[name]) else None
    }

    /** `null` exactly for an unregistered name; otherwise that breaker's flags under the queried name. */
    function GetBreakerStats(name: string): (r: Option<Stats>)
      reads this
      ensures r.None? <==> name !in breakers
      ensures r.Some? ==> r.value.name == name && r.value.state == breakers[name].state
      ensures r.Some? ==>
        && r.value.isOpen == (r.value.state == Open)
        && r.value.isHalfOpen == (r.value.state == HalfOpen)
        && r.value.isClosed == (r.value.state == Closed)
    {
      match GetBreaker(name)
      case None => None
      case Some(b) => Some(Stats(name, b.state, b.Opened(), b.IsHalfOpen(), b.IsClosed()))
    }

    /** One entry per registered name, each what `GetBreakerStats` reports for it. */
    method GetAllBreakerStats() returns (all: map<string, Stats>)
      ensures all.Keys == breakers.Keys
      ensures forall name :: name in all ==> GetBreakerStats(name) == Some(all[name])
    {
      all := map[];
      var pending := breakers.Keys;
      while pending != {}
        invariant pending <= breakers.Keys
        invariant all.Keys == breakers.Keys - pending
        invariant forall name :: name in all ==> GetBreakerStats(name) == Some(all[name])
        decreases pending
      {
        var name :| name in pending;
        var stats := GetBreakerStats(name);
        all := all[name := stats.value];
        pending := pending - {name};
      }
    }
  }
}
