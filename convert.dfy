/**
 * `convertMap` (dkron/resource_job.go:136-142): copying the SDK's
 * `map[string]any` into a `map[string]string`, one type assertion per value.
 */
module MapConversion {
  import opened Wrappers
  import opened JobSchema

  /** Every value holds a string, so every `v.(string)` assertion succeeds. */
  predicate AllStrings(m: map<string, Value>) {
    forall k | k in m :: m[k].Str?
  }

  /** The string map whose entries are exactly those of `m`. */
  function Strings(m: map<string, Value>): (r: map<string, string>)
    requires AllStrings(m)
    ensures r.Keys == m.Keys
    ensures forall k | k in m :: m[k] == Str(r[k])
  {
    map k | k in m :: m[k].s
  }

  /** A string map as the SDK hands it back after `d.Set`. */
  function Lift(m: map<string, string>): (r: map<string, Value>)
    ensures AllStrings(r) && Strings(r) == m
  {
    map k | k in m :: Str(m[k])
  }

  lemma LiftStrings(m: map<string, Value>)
    requires AllStrings(m)
    ensures Lift(Strings(m)) == m
  {
  }

  /**
   * The copying loop. `None` stands for the run-time panic of a failed
   * `v.(string)`; otherwise the result has the same keys and the same strings.
   */
  method ConvertMap(m: map<string, Value>) returns (r: Option<map<string, string>>)
    ensures r.Some? <==> AllStrings(m)
    ensures r.Some? ==> r.value.Keys == m.Keys && forall k | k in m :: m[k] == Str(r.value[k])
    ensures r.Some? ==> r.value == Strings(m)
  {
    var res: map<string, string> := map[];
    var rest := m.Keys;
    while rest != {}
      invariant rest <= m.Keys
      invariant res.Keys == m.Keys - rest
      invariant forall k | k in res :: m[k] == Str(res[k])
      decreases rest
    {
      var k :| k in rest;
      match m[k] {
        case Str(s) =>
          res := res[k := s];
        case _ =>
          return None;
      }
      rest := rest - {k};
    }
    r := Some(res);
  }
}
