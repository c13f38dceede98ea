/**
 * The meter registry: a lazily allocated directory from instrumentation scope
 * to meter, handing out one meter per scope.
 */
module MeterRegistry {
  import opened Wrappers

  /** The identity of an instrumentation library. */
  datatype Scope = Scope(name: string, version: string, schemaURL: string)

  /** The pipelines measurements are routed into; only their identity matters here. */
  datatype Pipelines = Pipelines(readers: seq<nat>)

  /** A meter serves one instrumentation scope and routes into the registry's pipelines. */
  class Meter {
    const scope: Scope
    const pipes: Pipelines

    constructor (scope: Scope, pipes: Pipelines)
      ensures this.scope == scope && this.pipes == pipes
    {
      this.scope := scope;
      this.pipes := pipes;
    }
  }

  class Registry {
    /** None is the zero value: no map allocated yet. */
    var meters: Option<map<Scope, Meter>>
    const pipes: Pipelines

    /** Every registered meter serves the scope it is registered under, into the registry's pipelines. */
    ghost predicate Valid()
      reads this
    {
      meters.Some? ==>
        forall s :: s in meters.value ==> meters.value[s].scope == s && meters.value[s].pipes == pipes
    }

    /** The scopes that have a meter. */
    function Registered(): set<Scope>
      reads this
    {
      if meters.None? then {} else meters.value.Keys
    }

    /** The zero registry over the given pipelines. */
    constructor (pipes: Pipelines)
      ensures Valid() && meters == None && this.pipes == pipes
    {
      meters := None;
      this.pipes := pipes;
    }

    /** The meter registered for `s`, registering a new one first if there is none. */
    method Get(s: Scope) returns (m: Meter)
      requires Valid()
      modifies this
      ensures Valid()
      ensures m.scope == s && m.pipes == pipes
      ensures old(meters).None? ==> fresh(m) && meters == Some(map[s := m])
      ensures old(meters).Some? && s in old(meters).value ==>
                m == old(meters).value[s] && meters == old(meters)
      ensures old(meters).Some? && s !in old(meters).value ==>
                fresh(m) && meters == Some(old(meters).value[s := m])
      ensures Registered() == old(Registered()) + {s}
      ensures |meters.value| == |old(Registered())| + (if s in old(Registered()) then 0 else 1)
    {
      if meters.None? {
        m := new Meter(s, pipes);
        meters := Some(map[s := m]);
        return m;
      }
      if s in meters.value {
        return meters.value[s];
      }
      m := new Meter(s, pipes);
      meters := Some(meters.value[s := m]);
    }
  }

  /** Asking twice for the same scope hands out the same meter. */
  method GetIsIdempotent(r: Registry, s: Scope) returns (m1: Meter, m2: Meter)
    requires r.Valid()
    modifies r
    ensures r.Valid()
    ensures m1 == m2
    ensures r.Registered() == old(r.Registered()) + {s}
  {
    m1 := r.Get(s);
    m2 := r.Get(s);
  }

  /** Different scopes get different meters, and the first one stays registered. */
  method DistinctScopesGetDistinctMeters(r: Registry, a: Scope, b: Scope) returns (ma: Meter, mb: Meter)
    requires r.Valid() && a != b
    modifies r
    ensures r.Valid()
    ensures ma != mb
    ensures r.meters.Some? && a in r.meters.value && b in r.meters.value
    ensures r.meters.value[a] == ma && r.meters.value[b] == mb
  {
    ma := r.Get(a);
    mb := r.Get(b);
  }
}
