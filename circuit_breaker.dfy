/** The per-service circuit breaker registry (`getCircuitBreaker`, `protectedRequest`,
    `getCircuitBreakerStats`). The breaker's own state machine belongs to opossum and is not modelled:
    a breaker is an object whose `opened`/`halfOpen` flags and `stats` the library updates. */
module CircuitBreaker {
  import opened Wrappers
  import Json
  import opened Http

  /** The options every breaker is built with, plus its name. */
  datatype Options = Options(
    timeout: nat,
    errorThresholdPercentage: nat,
    resetTimeout: nat,
    rollingCountTimeout: nat,
    rollingCountBuckets: nat,
    volumeThreshold: nat,
    name: string)

  /** `{...breakerOptions, name: serviceName}` */
  function OptionsFor(serviceName: string): (o: Options)
    ensures o.name == serviceName
    ensures o.timeout == 5000 && o.errorThresholdPercentage == 50 && o.resetTimeout == 30000
    ensures o.rollingCountTimeout == 10000 && o.rollingCountBuckets == 10 && o.volumeThreshold == 5
    ensures o.rollingCountTimeout / o.rollingCountBuckets == 1000
  {
    Options(5000, 50, 30000, 10000, 10, 5, serviceName)
  }

  class Breaker {
    const name: string
    const options: Options
    /** `breaker.opened` (`opened` is a reserved word here). */
    var isOpen: bool
    var halfOpen: bool
    /** The library's rolling counters, read as an opaque JSON snapshot. */
    var stats: Json.Value

    /** A new breaker starts closed. */
    constructor (name: string)
      ensures this.name == name && options == OptionsFor(name)
      ensures !isOpen && !halfOpen
    {
      this.name := name;
      options := OptionsFor(name);
      isOpen := false;
      halfOpen := false;
      stats := Json.Obj(map[]);
    }
  }

  datatype State = Closed | Open | HalfOpen

  /** `breaker.opened ? 'open' : breaker.halfOpen ? 'half-open' : 'closed'`, as a state. */
  function StateOf(isOpen: bool, halfOpen: bool): (s: State)
    ensures s == Open <==> isOpen
    ensures s == HalfOpen <==> !isOpen && halfOpen
    ensures s == Closed <==> !isOpen && !halfOpen
  {
    if isOpen then Open else if halfOpen then HalfOpen else Closed
  }

  function Label(s: State): string {
    match s
    case Open => "open"
    case HalfOpen => "half-open"
    case Closed => "closed"
  }

  /** The three labels are distinct, so a label names exactly one state. */
  lemma LabelInjective(s1: State, s2: State)
    ensures Label(s1) == Label(s2) <==> s1 == s2
  {
  }

  /** One entry of `getCircuitBreakerStats()`. */
  datatype Entry = Entry(state: string, stats: Json.Value)

  function EntryOf(b: Breaker): Entry
    reads b
  {
    Entry(Label(StateOf(b.isOpen, b.halfOpen)), b.stats)
  }

  /** The fallback opossum resolves with instead of calling the backend. */
  datatype HttpResponse = HttpResponse(status: int, data: Json.Value)

  function Fallback(serviceName: string): (r: HttpResponse)
    ensures r.status == 503
    ensures Json.Field(r.data, "fallback") == Some(Json.Bool(true))
    ensures Json.Field(r.data, "service") == Some(Json.Str(serviceName))
    ensures Json.Truthy(Some(r.data))
  {
    HttpResponse(503, Json.Obj(map[
      "error" := Json.Str("Service temporarily unavailable"),
      "service" := Json.Str(serviceName),
      "fallback" := Json.Bool(true),
      "message" := Json.Str("Please try again later")]))
  }

  /** The axios request config a caller passes in. */
  datatype RequestConfig = RequestConfig(httpMethod: string, url: string, headers: Headers, baseURL: Option<string>)

  /** `{...config, baseURL: serviceUrl}`: the service URL replaces any base URL of the caller's. */
  function WithBaseUrl(config: RequestConfig, serviceUrl: string): (c: RequestConfig)
    ensures c.baseURL == Some(serviceUrl)
    ensures c.httpMethod == config.httpMethod && c.url == config.url && c.headers == config.headers
  {
    config.(baseURL := Some(serviceUrl))
  }

  /** The settled promise of a call. */
  datatype CallOutcome = Resolved(response: HttpResponse) | Rejected(message: string)

  /** `breaker.fire(config)` on the breaker registered under a name: the whole opossum call, including
      its short-circuit while open and its use of the fallback. */
  type Fire = (string, RequestConfig) -> CallOutcome

  /** What `protectedRequest(serviceName, serviceUrl, config)` settles with: the breaker's outcome,
      rethrown unchanged on failure. */
  function Protected(fire: Fire, serviceName: string, serviceUrl: string, config: RequestConfig): CallOutcome {
    fire(serviceName, WithBaseUrl(config, serviceUrl))
  }

  /** Whatever base URL the caller put in its config, the call goes to the service URL. */
  lemma ProtectedIgnoresCallerBaseUrl(fire: Fire, name: string, url: string, c1: RequestConfig, c2: RequestConfig)
    requires c1.(baseURL := None) == c2.(baseURL := None)
    ensures Protected(fire, name, url, c1) == Protected(fire, name, url, c2)
  {
    assert WithBaseUrl(c1, url) == WithBaseUrl(c2, url);
  }

  /** The module-level `breakers` map; `order` is its insertion order, which `forEach` follows. */
  class Registry {
    var breakers: map<string, Breaker>
    var order: seq<string>

    ghost predicate Valid()
      reads this
    {
      && (forall i :: 0 <= i < |order| ==> order[i] in breakers)
      && (forall n :: n in breakers ==> n in order)
      && (forall i, j :: 0 <= i < j < |order| ==> order[i] != order[j])
      && (forall n :: n in breakers ==> breakers[n].name == n)
    }

    constructor ()
      ensures Valid() && breakers == map[] && order == []
    {
      breakers := map[];
      order := [];
    }

    /** `getCircuitBreaker(serviceName, serviceUrl)`: the registered breaker when there is one, otherwise a
        new closed breaker registered under the name. The URL plays no part. */
    method GetCircuitBreaker(serviceName: string, serviceUrl: string) returns (b: Breaker)
      requires Valid()
      modifies this
      ensures Valid()
      ensures serviceName in breakers && b == breakers[serviceName] && b.name == serviceName
      ensures breakers.Keys == old(breakers.Keys) + {serviceName}
      ensures forall n :: n in old(breakers) ==> breakers[n] == old(breakers[n])
      ensures serviceName in old(breakers) ==> breakers == old(breakers) && order == old(order)
      ensures serviceName !in old(breakers) ==>
        fresh(b) && !b.isOpen && !b.halfOpen && b.options == OptionsFor(serviceName)
        && order == old(order) + [serviceName]
    {
      if serviceName in breakers {
        return breakers[serviceName];
      }
      b := new Breaker(serviceName);
      breakers := breakers[serviceName := b];
      order := order + [serviceName];
    }

    /** `protectedRequest(serviceName, serviceUrl, config)`: registers the breaker if needed, then fires it
        with the service URL as base URL. Firing lets the library update the fired breaker's flags and
        counters, so the frame includes that breaker and nothing is promised about them. */
    method ProtectedRequest(fire: Fire, serviceName: string, serviceUrl: string, config: RequestConfig)
      returns (o: CallOutcome)
      requires Valid()
      modifies this, if serviceName in breakers then {breakers[serviceName]} else {}
      ensures Valid()
      ensures serviceName in breakers && breakers[serviceName].name == serviceName
      ensures breakers.Keys == old(breakers.Keys) + {serviceName}
      ensures forall n :: n in old(breakers) ==> breakers[n] == old(breakers[n])
      ensures serviceName in old(breakers) ==> order == old(order)
      ensures serviceName !in old(breakers) ==>
        fresh(breakers[serviceName]) && breakers[serviceName].options == OptionsFor(serviceName)
        && order == old(order) + [serviceName]
      ensures o == Protected(fire, serviceName, serviceUrl, config)
    {
      var breaker := GetCircuitBreaker(serviceName, serviceUrl);
      o := fire(serviceName, WithBaseUrl(config, serviceUrl));
    }

    /** The stats of every registered breaker, as a value. */
    function StatsView(): map<string, Entry>
      reads this, breakers.Values
    {
      map n | n in breakers :: EntryOf(breakers[n])
    }

    /** `getCircuitBreakerStats()`: one entry per registered breaker, read without changing anything. */
    method GetCircuitBreakerStats() returns (stats: map<string, Entry>)
      requires Valid()
      ensures stats.Keys == breakers.Keys
      ensures forall n :: n in stats ==> stats[n] == EntryOf(breakers[n])
      ensures stats == StatsView()
    {
      stats := map[];
      var i := 0;
      while i < |order|
        invariant 0 <= i <= |order|
        invariant forall j :: 0 <= j < i ==> order[j] in stats
        invariant forall n :: n in stats ==> n in order[..i]
        invariant forall n :: n in stats ==> n in breakers && stats[n] == EntryOf(breakers[n])
      {
        var name := order[i];
        stats := stats[name := EntryOf(breakers[name])];
        i := i + 1;
      }
      assert order[..i] == order;
    }
  }

  /** Two successive registrations under one name yield one breaker, whatever URL the second passes. */
  method RegistryKeyedByName(name: string, url1: string, url2: string) returns (first: Breaker, second: Breaker, size: nat)
    ensures first == second && first.name == name
    ensures size == 1
  {
    var registry := new Registry();
    first := registry.GetCircuitBreaker(name, url1);
    second := registry.GetCircuitBreaker(name, url2);
    size := |registry.breakers|;
  }
}
