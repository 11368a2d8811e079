/**
 * The two reshapings of a job's processors: the configuration's list of
 * processor records becomes the service's map keyed by processor type
 * (dkron/resource_job.go:171-188), and that map becomes a list again on read
 * (dkron/resource_job.go:255-259).
 */
module ProcessorShape {
  import opened Wrappers
  import opened JobSchema
  import opened MapConversion

  const TYPE_KEY := "type"
  const FORWARD_KEY := "forward"
  const LOG_DIR_KEY := "log_dir"

  /** Go's `m[k]` on a `map[string]string`: the empty string when `k` is absent. */
  function Get(m: map<string, string>, k: string): string {
    if k in m then m[k] else ""
  }

  /** The map key a processor record is stored under: its `type`, or "" when it has none. */
  function TypeOf(p: Processor): string {
    Get(p, TYPE_KEY)
  }

  /** One processor record as it is sent: `type` removed, an empty `forward` or `log_dir` dropped. */
  function Outbound(p: Processor): (r: Processor)
    ensures TYPE_KEY !in r
    ensures FORWARD_KEY in r <==> Get(p, FORWARD_KEY) != ""
    ensures LOG_DIR_KEY in r <==> Get(p, LOG_DIR_KEY) != ""
    ensures forall k | k in r :: k in p && r[k] == p[k]
    ensures forall k | k in p && k != TYPE_KEY && k != FORWARD_KEY && k != LOG_DIR_KEY :: k in r
  {
    var untyped := p - {TYPE_KEY};
    var q := if Get(untyped, FORWARD_KEY) == "" then untyped - {FORWARD_KEY} else untyped;
    if Get(q, LOG_DIR_KEY) == "" then q - {LOG_DIR_KEY} else q
  }

  /** The service's processor map built from a list, entry by entry in list order. */
  function Reshaped(ps: seq<Processor>): map<string, Processor> {
    if ps == [] then map[]
    else
      var last := ps[|ps| - 1];
      Reshaped(ps[..|ps| - 1])[TypeOf(last) := Outbound(last)]
  }

  function TypesOf(ps: seq<Processor>): set<string> {
    set j | 0 <= j < |ps| :: TypeOf(ps[j])
  }

  /** The keys of the outbound map are exactly the types found in the list. */
  lemma {:induction false} ReshapedKeys(ps: seq<Processor>)
    ensures Reshaped(ps).Keys == TypesOf(ps)
  {
    if ps != [] {
      var init := ps[..|ps| - 1];
      ReshapedKeys(init);
      assert forall j | 0 <= j < |init| :: init[j] == ps[j];
      assert TypesOf(ps) == TypesOf(init) + {TypeOf(ps[|ps| - 1])};
    }
  }

  /** When several entries share a type, the last of them in list order is the one kept. */
  lemma {:induction false} ReshapedLastWins(ps: seq<Processor>, j: int)
    requires 0 <= j < |ps|
    requires forall k | j < k < |ps| :: TypeOf(ps[k]) != TypeOf(ps[j])
    ensures TypeOf(ps[j]) in Reshaped(ps)
    ensures Reshaped(ps)[TypeOf(ps[j])] == Outbound(ps[j])
  {
    if j < |ps| - 1 {
      var init := ps[..|ps| - 1];
      ReshapedLastWins(init, j);
    }
  }

  /** No processor value sent to the service carries a `type` key. */
  lemma {:induction false} ReshapedUntyped(ps: seq<Processor>)
    ensures forall t | t in Reshaped(ps) :: TYPE_KEY !in Reshaped(ps)[t]
  {
    if ps != [] {
      ReshapedUntyped(ps[..|ps| - 1]);
    }
  }

  /** With every type drawn from the validator's three kinds, at most three processors are sent. */
  lemma ReshapedWithinSchema(ps: seq<Processor>)
    requires forall j | 0 <= j < |ps| :: ParseProcessorKind(TypeOf(ps[j])).Some?
    ensures |Reshaped(ps)| <= 3
  {
    ReshapedKeys(ps);
    ProcessorKindCount();
    var keys := Reshaped(ps).Keys;
    assert keys <= PROCESSOR_KIND_NAMES;
    assert keys + PROCESSOR_KIND_NAMES == PROCESSOR_KIND_NAMES;
  }

  predicate AllConvertible(ps: seq<map<string, Value>>) {
    forall j | 0 <= j < |ps| :: AllStrings(ps[j])
  }

  /** `convertMap` applied to every element of the list. */
  function StringsEach(ps: seq<map<string, Value>>): (r: seq<Processor>)
    requires AllConvertible(ps)
    ensures |r| == |ps| && forall j | 0 <= j < |ps| :: r[j] == Strings(ps[j])
  {
    seq(|ps|, j requires 0 <= j < |ps| => Strings(ps[j]))
  }

  function LiftEach(ps: seq<Processor>): (r: seq<map<string, Value>>)
    ensures |r| == |ps| && forall j | 0 <= j < |ps| :: r[j] == Lift(ps[j])
    ensures AllConvertible(r) && StringsEach(r) == ps
  {
    seq(|ps|, j requires 0 <= j < |ps| => Lift(ps[j]))
  }

  lemma ReshapedStep(ps: seq<map<string, Value>>, i: int)
    requires 0 <= i < |ps| && AllConvertible(ps[..i]) && AllStrings(ps[i])
    ensures AllConvertible(ps[..i + 1])
    ensures Reshaped(StringsEach(ps[..i + 1])) ==
      Reshaped(StringsEach(ps[..i]))[TypeOf(Strings(ps[i])) := Outbound(Strings(ps[i]))]
  {
    assert ps[..i + 1][..i] == ps[..i];
    var sent := StringsEach(ps[..i + 1]);
    assert sent[..i] == StringsEach(ps[..i]);
  }

  /**
   * The outbound loop of the create operation. `None` stands for the panic of a
   * failed type assertion inside `convertMap`.
   */
  method ReshapeProcessors(processors: seq<map<string, Value>>) returns (r: Option<map<string, Processor>>)
    ensures r.Some? <==> AllConvertible(processors)
    ensures r.Some? ==> r.value == Reshaped(StringsEach(processors))
  {
    var body: map<string, Processor> := map[];
    var i := 0;
    while i < |processors|
      invariant 0 <= i <= |processors|
      invariant AllConvertible(processors[..i])
      invariant body == Reshaped(StringsEach(processors[..i]))
    {
      var converted := ConvertMap(processors[i]);
      if converted.None? {
        return None;
      }
      var processor := converted.value;
      var ty := Get(processor, TYPE_KEY);
      processor := processor - {TYPE_KEY};
      if Get(processor, FORWARD_KEY) == "" {
        processor := processor - {FORWARD_KEY};
      }
      if Get(processor, LOG_DIR_KEY) == "" {
        processor := processor - {LOG_DIR_KEY};
      }
      assert processor == Outbound(converted.value);
      body := body[ty := processor];
      ReshapedStep(processors, i);
      i := i + 1;
    }
    assert processors[..i] == processors;
    r := Some(body);
  }

  /** One map entry as it is read back: the key written into the value under `type`. */
  function Inbound(t: string, p: Processor): (r: Processor)
    ensures TYPE_KEY in r && r[TYPE_KEY] == t
    ensures r - {TYPE_KEY} == p - {TYPE_KEY}
  {
    p[TYPE_KEY := t]
  }

  /** The records a read produces, one per map entry, in no particular order. */
  function RestoredEntries(procs: map<string, Processor>): set<Processor> {
    set t | t in procs :: Inbound(t, procs[t])
  }

  /** A record is produced by a read exactly when it is some entry with its key written back. */
  lemma RestoredEntryShape(procs: map<string, Processor>, x: Processor)
    ensures x in RestoredEntries(procs) <==>
      TYPE_KEY in x && x[TYPE_KEY] in procs && x == Inbound(x[TYPE_KEY], procs[x[TYPE_KEY]])
  {
  }

  lemma RestoredEntriesAdd(procs: map<string, Processor>, t: string, p: Processor)
    requires t !in procs
    ensures Inbound(t, p) !in RestoredEntries(procs)
    ensures RestoredEntries(procs[t := p]) == RestoredEntries(procs) + {Inbound(t, p)}
  {
    var extended := procs[t := p];
    assert Inbound(t, p) == Inbound(t, extended[t]);
    forall x | x in RestoredEntries(extended)
      ensures x in RestoredEntries(procs) + {Inbound(t, p)}
    {
      var u :| u in extended && x == Inbound(u, extended[u]);
      if u != t {
        assert x == Inbound(u, procs[u]);
      }
    }
    forall x | x in RestoredEntries(procs)
      ensures x in RestoredEntries(extended)
    {
      var u :| u in procs && x == Inbound(u, procs[u]);
      assert x == Inbound(u, extended[u]);
    }
  }

  /** A read produces exactly as many records as the map has entries. */
  lemma {:induction false} RestoredEntriesCount(procs: map<string, Processor>)
    ensures |RestoredEntries(procs)| == |procs|
    decreases |procs|
  {
    if procs != map[] {
      var t :| t in procs;
      var rest := procs - {t};
      assert procs == rest[t := procs[t]];
      RestoredEntriesCount(rest);
      RestoredEntriesAdd(rest, t, procs[t]);
    }
  }

  /** No processor value was decoded from a JSON `null`. */
  predicate NoNil(procs: map<string, Option<Processor>>) {
    forall t | t in procs :: procs[t].Some?
  }

  /** The decoded processor map with every value present. */
  function Present(procs: map<string, Option<Processor>>): (r: map<string, Processor>)
    requires NoNil(procs)
    ensures r.Keys == procs.Keys && forall t | t in procs :: procs[t] == Some(r[t])
  {
    map t | t in procs :: procs[t].value
  }

  /**
   * The inbound loop of the read operation. Go visits the map in an unspecified
   * order, so the key taken next is an arbitrary one and the result is fixed
   * only as a multiset. Writing `type` into a nil map panics: `None` stands for
   * that panic.
   */
  method RestoreProcessors(procs: map<string, Option<Processor>>) returns (out: Option<seq<Processor>>)
    ensures out.Some? <==> NoNil(procs)
    ensures out.Some? ==> |out.value| == |procs|
    ensures out.Some? ==> multiset(out.value) == multiset(RestoredEntries(Present(procs)))
  {
    var restored: seq<Processor> := [];
    var rest := procs.Keys;
    ghost var done: map<string, Processor> := map[];
    while rest != {}
      invariant rest <= procs.Keys
      invariant done.Keys == procs.Keys - rest
      invariant forall k | k in done :: procs[k] == Some(done[k])
      invariant multiset(restored) == multiset(RestoredEntries(done))
      decreases rest
    {
      var i :| i in rest;
      if procs[i].None? {
        return None;
      }
      var p := procs[i].value;
      p := p[TYPE_KEY := i];
      RestoreStep(done, restored, i, procs[i].value);
      restored := restored + [p];
      done := done[i := procs[i].value];
      rest := rest - {i};
    }
    AllVisited(procs, done);
    RestoredLength(restored, procs);
    out := Some(restored);
  }

  /** One iteration of the inbound loop adds exactly the record of the key it visits. */
  lemma RestoreStep(done: map<string, Processor>, restored: seq<Processor>, t: string, p: Processor)
    requires t !in done
    requires multiset(restored) == multiset(RestoredEntries(done))
    ensures multiset(restored + [Inbound(t, p)]) == multiset(RestoredEntries(done[t := p]))
  {
    RestoredEntriesAdd(done, t, p);
    MultisetOfAdd(RestoredEntries(done), Inbound(t, p));
  }

  lemma RestoredLength(restored: seq<Processor>, procs: map<string, Option<Processor>>)
    requires NoNil(procs)
    requires multiset(restored) == multiset(RestoredEntries(Present(procs)))
    ensures |restored| == |procs|
  {
    RestoredEntriesCount(Present(procs));
    assert |restored| == |multiset(restored)|;
    assert |Present(procs)| == |Present(procs).Keys| == |procs.Keys| == |procs|;
  }

  lemma AllVisited(procs: map<string, Option<Processor>>, done: map<string, Processor>)
    requires done.Keys == procs.Keys
    requires forall k | k in done :: procs[k] == Some(done[k])
    ensures NoNil(procs) && done == Present(procs)
  {
  }

  lemma MultisetOfAdd(s: set<Processor>, x: Processor)
    requires x !in s
    ensures multiset(s + {x}) == multiset(s) + multiset{x}
  {
  }

  /** A processor record with an empty `forward` or `log_dir` removed. */
  function DropEmpty(p: Processor): Processor {
    var q := if Get(p, FORWARD_KEY) == "" then p - {FORWARD_KEY} else p;
    if Get(q, LOG_DIR_KEY) == "" then q - {LOG_DIR_KEY} else q
  }

  function Normalized(ps: seq<Processor>): (r: seq<Processor>)
    ensures |r| == |ps| && forall j | 0 <= j < |ps| :: r[j] == DropEmpty(ps[j])
  {
    seq(|ps|, j requires 0 <= j < |ps| => DropEmpty(ps[j]))
  }

  predicate Typed(ps: seq<Processor>) {
    forall j | 0 <= j < |ps| :: TYPE_KEY in ps[j]
  }

  predicate DistinctTypes(ps: seq<Processor>) {
    forall i, j | 0 <= i < j < |ps| :: TypeOf(ps[i]) != TypeOf(ps[j])
  }

  /** Writing the `type` back undoes the outbound step, apart from the dropped empty fields. */
  lemma InboundOutbound(p: Processor)
    requires TYPE_KEY in p
    ensures Inbound(TypeOf(p), Outbound(p)) == DropEmpty(p)
  {
  }

  /**
   * Round trip: a list with present and distinct types, sent and read back,
   * is, as a multiset, the original list with empty `forward`/`log_dir` removed.
   */
  lemma {:induction false} RoundTrip(ps: seq<Processor>)
    requires Typed(ps) && DistinctTypes(ps)
    ensures multiset(RestoredEntries(Reshaped(ps))) == multiset(Normalized(ps))
  {
    if ps != [] {
      var init := ps[..|ps| - 1];
      var last := ps[|ps| - 1];
      RoundTrip(init);
      ReshapedKeys(init);
      assert forall j | 0 <= j < |init| :: init[j] == ps[j];
      assert TypeOf(last) !in TypesOf(init);
      RestoredEntriesAdd(Reshaped(init), TypeOf(last), Outbound(last));
      InboundOutbound(last);
      assert Normalized(ps) == Normalized(init) + [DropEmpty(last)];
    }
  }
}
