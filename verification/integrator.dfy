/**
 * The checkpoint integrator: a map from (descriptor, label set, resource) to a
 * record of aggregators, driven through collection rounds by StartCollection,
 * Process and FinishCollection, and read between rounds by ForEach.
 */
module SimpleIntegrator {
  import opened Wrappers
  import opened Aggregation
  import opened Accounting

  /** A label set in canonical form; a map is already independent of attribute order. */
  datatype LabelSet = LabelSet(attributes: map<string, string>) {
    function Equivalent(): map<string, string> { attributes }
  }

  /** A resource in canonical form. */
  datatype Resource = Resource(attributes: map<string, string>) {
    function Equivalent(): map<string, string> { attributes }
  }

  /** One producer's report for one instrument, label set and resource. */
  datatype Accumulation = Accumulation(descriptor: Descriptor, labels: LabelSet, resource: Resource, aggregator: Aggregator)

  /** What the exporter receives for one record. `aggregation` is the aggregator read. */
  datatype Record = Record(descriptor: Descriptor, labels: LabelSet, resource: Resource,
                           aggregation: Aggregator, start: int, end: int)

  datatype StateKey = StateKey(descriptor: Descriptor, distinct: map<string, string>, resource: map<string, string>)

  function KeyOf(acc: Accumulation): StateKey {
    StateKey(acc.descriptor, acc.labels.Equivalent(), acc.resource.Equivalent())
  }

  /**
   * The record kept per key. `current` may be a producer's aggregator or the
   * record's own `delta`; `delta` and `cumulative` belong to the integrator.
   */
  datatype StateValue = StateValue(
    labels: LabelSet,
    resource: Resource,
    updated: int,
    stateful: bool,
    current: Aggregator,
    delta: Aggregator?,
    cumulative: Aggregator?)

  /** The aggregators a record references. */
  function Refs(v: StateValue): set<Aggregator> {
    {v.current}
    + (if v.delta == null then {} else {v.delta})
    + (if v.cumulative == null then {} else {v.cumulative})
  }

  /**
   * A record's shape: a cumulative aggregator exactly when stateful, a delta one
   * for every stateful precomputed sum, owned aggregators distinct from the
   * current one, and `current` is the scratch delta only for synchronous instruments.
   */
  predicate WellFormed(k: StateKey, v: StateValue) {
    && (v.cumulative != null <==> v.stateful)
    && (v.stateful && k.descriptor.kind.PrecomputedSum() ==> v.delta != null)
    && (v.cumulative != null ==> v.cumulative != v.current && v.cumulative != v.delta)
    && (v.current == v.delta ==> !k.descriptor.kind.Asynchronous())
  }

  /** Distinct records never share an aggregator. */
  predicate Separate(values: map<StateKey, StateValue>) {
    forall k1, k2 :: k1 in values && k2 in values && k1 != k2 ==> Refs(values[k1]) !! Refs(values[k2])
  }

  lemma SeparatePut(values: map<StateKey, StateValue>, key: StateKey, v: StateValue)
    requires Separate(values)
    requires forall k :: k in values && k != key ==> Refs(v) !! Refs(values[k])
    ensures Separate(values[key := v])
  {
  }

  /** The records other than `key`'s reference none of its aggregators. */
  lemma OthersApart(values: map<StateKey, StateValue>, key: StateKey)
    requires Separate(values) && key in values
    ensures forall k :: k in values && k != key ==> Refs(values[k]) !! Refs(values[key])
  {
  }

  lemma SeparateRemove(values: map<StateKey, StateValue>, key: StateKey)
    requires Separate(values)
    ensures Separate(values - {key})
  {
  }

  /** The sums a record's aggregators hold. */
  ghost function View(v: StateValue): Sums
    reads Refs(v)
  {
    Sums(v.current.sum,
         if v.delta == null then None else Some(v.delta.sum),
         if v.cumulative == null then None else Some(v.cumulative.sum))
  }

  lemma StatefulIsRetained(k: StateKey, v: StateValue)
    requires WellFormed(k, v) && v.stateful
    ensures Retained(k.descriptor.kind.PrecomputedSum(), View(v))
  {
  }

  /** FinishCollection can reconcile this stateful record without an aggregator error. */
  predicate Reconcilable(k: StateKey, v: StateValue)
    requires WellFormed(k, v) && v.stateful
  {
    if k.descriptor.kind.PrecomputedSum() then
      v.current.subtracts && v.cumulative.kind == v.current.kind && v.delta.kind == v.current.kind
    else
      v.cumulative.kind == v.current.kind
  }

  /** Why reconciling a stateful record fails with NoSubtraction: a precomputed sum whose current aggregator cannot subtract. */
  predicate CannotSubtract(k: StateKey, v: StateValue) {
    k.descriptor.kind.PrecomputedSum() && !v.current.subtracts
  }

  /** ForEach never dereferences an aggregator the record did not allocate. */
  predicate Exportable(exporter: (Descriptor, Kind) -> ExportKind, k: StateKey, v: StateValue) {
    match ChooseExport(exporter(k.descriptor, v.current.kind), k.descriptor.kind, v.stateful)
    case None => true
    case Some(c) =>
      (c.slot == CumulativeSlot ==> v.cumulative != null) && (c.slot == DeltaSlot ==> v.delta != null)
  }

  /** The error ForEach reports a visitor error as; NoData is not an error. */
  function Swallow(e: Option<Error>): (r: Option<Error>)
    ensures r.None? <==> e.None? || e == Some(NoData)
    ensures r.Some? ==> r == e
  {
    if e == Some(NoData) then None else e
  }

  /** Appending a key not yet visited keeps the visit order free of repeats. */
  lemma AppendUnvisited<K>(order: seq<K>, remaining: set<K>, key: K)
    requires forall i :: 0 <= i < |order| ==> order[i] !in remaining
    requires forall i, j :: 0 <= i < j < |order| ==> order[i] != order[j]
    requires key in remaining
    ensures forall i :: 0 <= i < |order + [key]| ==> (order + [key])[i] !in remaining - {key}
    ensures forall i, j :: 0 <= i < j < |order + [key]| ==> (order + [key])[i] != (order + [key])[j]
  {
  }

  class Integrator {
    /** ExportKindSelector: the export kind for a descriptor and an aggregation kind. */
    const exportKindFor: (Descriptor, Kind) -> ExportKind
    /** AggregationSelector: the aggregator implementation allocated for a descriptor. */
    const aggregatorFor: Descriptor -> Implementation

    var values: map<StateKey, StateValue>
    var processStart: int
    var intervalStart: int
    var intervalEnd: int
    var startedCollection: int
    var finishedCollection: int

    ghost predicate Valid()
      reads this
    {
      && 0 <= finishedCollection <= startedCollection
      && (forall k :: k in values ==> WellFormed(k, values[k]) && values[k].updated <= finishedCollection)
      && Separate(values)
    }

    /** A collection round is open: Process may be called. */
    predicate InRound()
      reads this
    {
      startedCollection == finishedCollection + 1
    }

    /** Every aggregator some record references. */
    ghost function Footprint(): set<Aggregator>
      reads this
    {
      set k, a | k in values && a in Refs(values[k]) :: a
    }

    ghost function RefsAt(key: StateKey): set<Aggregator>
      reads this
    {
      if key in values then Refs(values[key]) else {}
    }

    /**
     * The aggregator an accumulation hands over is the producer's: no other
     * record references it, and it is not one the integrator owns.
     */
    ghost predicate Lendable(agg: Aggregator, key: StateKey)
      reads this
    {
      && (forall k :: k in values && k != key ==> agg !in Refs(values[k]))
      && (key in values ==> agg != values[key].delta && agg != values[key].cumulative)
    }

    constructor New(aselector: Descriptor -> Implementation, eselector: (Descriptor, Kind) -> ExportKind, now: int)
      ensures Valid()
      ensures aggregatorFor == aselector && exportKindFor == eselector
      ensures values == map[] && startedCollection == 0 && finishedCollection == 0
      ensures processStart == now && intervalStart == now && intervalEnd == 0
    {
      aggregatorFor := aselector;
      exportKindFor := eselector;
      values := map[];
      processStart := now;
      intervalStart := now;
      intervalEnd := 0;
      startedCollection := 0;
      finishedCollection := 0;
    }

    method Process(acc: Accumulation) returns (err: Option<Error>)
      requires Valid()
      requires Lendable(acc.aggregator, KeyOf(acc))
      modifies this, RefsAt(KeyOf(acc))
      // exactly the accumulation's key may be added
      ensures values.Keys == old(values.Keys) + (if old(InRound()) then {KeyOf(acc)} else {})
      // outside a round nothing happens
      ensures !old(InRound()) ==>
                && err == Some(InconsistentState)
                && values == old(values)
                && (KeyOf(acc) in values ==> View(values[KeyOf(acc)]) == old(View(values[KeyOf(acc)])))
      // first sight of a key
      ensures old(InRound()) && KeyOf(acc) !in old(values) ==>
                var v := values[KeyOf(acc)];
                var impl := aggregatorFor(acc.descriptor);
                && err == None
                && v.labels == acc.labels && v.resource == acc.resource
                && v.updated == finishedCollection && v.current == acc.aggregator
                && v.stateful == MemoryRequired(exportKindFor(acc.descriptor, acc.aggregator.kind), acc.descriptor.kind)
                && (v.cumulative != null <==> v.stateful)
                && (v.delta != null <==> v.stateful && acc.descriptor.kind.PrecomputedSum())
                && (v.cumulative != null ==> fresh(v.cumulative) && v.cumulative.sum == 0 && v.cumulative.kind == impl.kind)
                && (v.delta != null ==> fresh(v.delta) && v.delta.sum == 0 && v.delta.kind == impl.kind)
      // first report in this round, or a repeated report of an asynchronous instrument: keep a reference
      ensures old(InRound()) && KeyOf(acc) in old(values)
              && (old(values[KeyOf(acc)].updated) != old(finishedCollection) || acc.descriptor.kind.Asynchronous()) ==>
                var v := old(values[KeyOf(acc)]);
                && err == None
                && values[KeyOf(acc)] == v.(updated := finishedCollection, current := acc.aggregator)
                && acc.aggregator.sum == old(acc.aggregator.sum)
                && (forall a :: a in Refs(v) ==> a.sum == old(a.sum))
      // repeated report of a synchronous instrument: merge into the scratch delta
      ensures old(InRound()) && KeyOf(acc) in old(values)
              && old(values[KeyOf(acc)].updated) == old(finishedCollection) && !acc.descriptor.kind.Asynchronous() ==>
                var v := old(values[KeyOf(acc)]);
                var w := values[KeyOf(acc)];
                var base := if v.delta == null then 0 else old(v.delta.sum);
                && w.delta != null
                && w == v.(current := w.current, delta := w.delta)
                && (v.delta != null ==> w.delta == v.delta)
                && (v.delta == null ==> fresh(w.delta) && w.delta.kind == aggregatorFor(acc.descriptor).kind)
                && (v.cumulative != null ==> v.cumulative.sum == old(v.cumulative.sum))
                && var copied := v.current != w.delta;
                && (err == None <==> (!copied || w.delta.kind == v.current.kind) && acc.aggregator.kind == w.delta.kind)
                && (err != None ==> err == Some(InconsistentType))
                && (copied && w.delta.kind != v.current.kind ==>
                      w.current == v.current && v.current.sum == old(v.current.sum) && w.delta.sum == base)
                && (!copied || w.delta.kind == v.current.kind ==>
                      && w.current == w.delta
                      && (copied ==> v.current.sum == 0)
                      && w.delta.sum == (if copied then old(v.current.sum) else base)
                                        + (if err == None then acc.aggregator.sum else 0))
      ensures Valid()
      ensures startedCollection == old(startedCollection) && finishedCollection == old(finishedCollection)
      ensures processStart == old(processStart) && intervalStart == old(intervalStart) && intervalEnd == old(intervalEnd)
      // no other record changes (their aggregators are outside the modifies clause,
      // and Separate keeps them apart)
      ensures forall k :: k in old(values) && k != KeyOf(acc) ==> values[k] == old(values[k])
      ensures acc.aggregator !in old(RefsAt(KeyOf(acc))) ==> acc.aggregator.sum == old(acc.aggregator.sum)
    {
      if startedCollection != finishedCollection + 1 {
        return Some(InconsistentState);
      }
      var key := KeyOf(acc);
      if key !in values {
        Insert(acc);
        return None;
      }
      var sameCollection := finishedCollection == values[key].updated;
      if !sameCollection || acc.descriptor.kind.Asynchronous() {
        // first report of this round, or an asynchronous repeat (the last value wins):
        // keep a reference, no copy
        Rebind(key, acc.aggregator);
        return None;
      }
      err := MergeRepeat(acc);
    }

    /** First sight of a key: a record whose statefulness the export kind decides. */
    method Insert(acc: Accumulation)
      requires Valid() && KeyOf(acc) !in values
      requires Lendable(acc.aggregator, KeyOf(acc))
      modifies this
      ensures Valid()
      ensures startedCollection == old(startedCollection) && finishedCollection == old(finishedCollection)
      ensures processStart == old(processStart) && intervalStart == old(intervalStart) && intervalEnd == old(intervalEnd)
      ensures KeyOf(acc) in values && values == old(values)[KeyOf(acc) := values[KeyOf(acc)]]
      ensures var v := values[KeyOf(acc)];
              var impl := aggregatorFor(acc.descriptor);
              && v.labels == acc.labels && v.resource == acc.resource
              && v.updated == finishedCollection && v.current == acc.aggregator
              && v.stateful == MemoryRequired(exportKindFor(acc.descriptor, acc.aggregator.kind), acc.descriptor.kind)
              && (v.cumulative != null <==> v.stateful)
              && (v.delta != null <==> v.stateful && acc.descriptor.kind.PrecomputedSum())
              && (v.cumulative != null ==> fresh(v.cumulative) && v.cumulative.sum == 0 && v.cumulative.kind == impl.kind)
              && (v.delta != null ==> fresh(v.delta) && v.delta.sum == 0 && v.delta.kind == impl.kind)
    {
      var desc := acc.descriptor;
      var key := KeyOf(acc);
      var agg := acc.aggregator;
      var stateful := MemoryRequired(exportKindFor(desc, agg.kind), desc.kind);
      var cumulative: Aggregator? := null;
      var delta: Aggregator? := null;
      if stateful {
        if desc.kind.PrecomputedSum() {
          // deltas will certainly be computed: allocate both aggregators up front
          cumulative := new Aggregator(aggregatorFor(desc));
          delta := new Aggregator(aggregatorFor(desc));
        } else {
          cumulative := new Aggregator(aggregatorFor(desc));
        }
      }
      var v := StateValue(acc.labels, acc.resource, finishedCollection, stateful, agg, delta, cumulative);
      SeparatePut(values, key, v);
      values := values[key := v];
    }

    /** An existing record takes the producer's aggregator by reference. */
    method Rebind(key: StateKey, agg: Aggregator)
      requires Valid() && key in values
      requires Lendable(agg, key)
      requires values[key].updated == finishedCollection ==> key.descriptor.kind.Asynchronous()
      modifies this
      ensures Valid()
      ensures startedCollection == old(startedCollection) && finishedCollection == old(finishedCollection)
      ensures processStart == old(processStart) && intervalStart == old(intervalStart) && intervalEnd == old(intervalEnd)
      ensures values == old(values)[key := old(values[key]).(updated := finishedCollection, current := agg)]
    {
      var v := values[key].(updated := finishedCollection, current := agg);
      SeparatePut(values, key, v);
      values := values[key := v];
    }

    /**
     * A synchronous instrument reported again in the same round: the first
     * producer's state is moved into the scratch `delta` once, then every later
     * report is merged into it.
     */
    method MergeRepeat(acc: Accumulation) returns (err: Option<Error>)
      requires Valid() && KeyOf(acc) in values
      requires values[KeyOf(acc)].updated == finishedCollection && !acc.descriptor.kind.Asynchronous()
      requires Lendable(acc.aggregator, KeyOf(acc))
      modifies this, RefsAt(KeyOf(acc))
      ensures values.Keys == old(values.Keys)
      ensures forall k :: k in old(values) && k != KeyOf(acc) ==> values[k] == old(values[k])
      ensures acc.aggregator !in old(RefsAt(KeyOf(acc))) ==> acc.aggregator.sum == old(acc.aggregator.sum)
      ensures var v := old(values[KeyOf(acc)]);
              var w := values[KeyOf(acc)];
              var base := if v.delta == null then 0 else old(v.delta.sum);
              && w.delta != null
              && w == v.(current := w.current, delta := w.delta)
              && (v.delta != null ==> w.delta == v.delta)
              && (v.delta == null ==> fresh(w.delta) && w.delta.kind == aggregatorFor(acc.descriptor).kind)
              && (v.cumulative != null ==> v.cumulative.sum == old(v.cumulative.sum))
              && var copied := v.current != w.delta;
              && (err == None <==> (!copied || w.delta.kind == v.current.kind) && acc.aggregator.kind == w.delta.kind)
              && (err != None ==> err == Some(InconsistentType))
              && (copied && w.delta.kind != v.current.kind ==>
                    w.current == v.current && v.current.sum == old(v.current.sum) && w.delta.sum == base)
              && (!copied || w.delta.kind == v.current.kind ==>
                    && w.current == w.delta
                    && (copied ==> v.current.sum == 0)
                    && w.delta.sum == (if copied then old(v.current.sum) else base)
                                      + (if err == None then acc.aggregator.sum else 0))
      ensures Valid()
      ensures startedCollection == old(startedCollection) && finishedCollection == old(finishedCollection)
      ensures processStart == old(processStart) && intervalStart == old(intervalStart) && intervalEnd == old(intervalEnd)
    {
      var key := KeyOf(acc);
      var agg := acc.aggregator;
      ghost var v0 := values[key];
      var delta := ScratchDelta(key);
      assert values[key] == v0.(delta := delta);
      if values[key].current != delta {
        // the second producer of this round: move the first one's state into delta
        err := AdoptDelta(key);
        if err != None {
          return err;
        }
      }
      OthersApart(values, key);
      err := delta.Merge(agg);
    }

    /** Moves the state of a record's `current` aggregator into its scratch delta, which becomes `current`. */
    method AdoptDelta(key: StateKey) returns (err: Option<Error>)
      requires Valid() && key in values && !key.descriptor.kind.Asynchronous()
      requires values[key].delta != null && values[key].current != values[key].delta
      modifies this, RefsAt(key)
      ensures Valid()
      ensures startedCollection == old(startedCollection) && finishedCollection == old(finishedCollection)
      ensures processStart == old(processStart) && intervalStart == old(intervalStart) && intervalEnd == old(intervalEnd)
      ensures var v := old(values[key]);
              && (err == None <==> v.delta.kind == v.current.kind)
              && (err != None ==> err == Some(InconsistentType) && values == old(values)
                                  && v.current.sum == old(v.current.sum) && v.delta.sum == old(v.delta.sum))
              && (err == None ==> values == old(values)[key := v.(current := v.delta)]
                                  && v.current.sum == 0 && v.delta.sum == old(v.current.sum))
              && (v.cumulative != null ==> v.cumulative.sum == old(v.cumulative.sum))
      ensures forall k :: k in old(values) && k != key ==>
                values[k] == old(values[k]) && View(values[k]) == old(View(values[k]))
    {
      var value := values[key];
      OthersApart(values, key);
      err := value.current.SynchronizedCopy(value.delta);
      if err != None {
        return err;
      }
      value := value.(current := value.delta);
      SeparatePut(values, key, value);
      values := values[key := value];
    }

    /** The record's scratch delta aggregator, allocated on first need. */
    method ScratchDelta(key: StateKey) returns (delta: Aggregator)
      requires Valid() && key in values && !key.descriptor.kind.Asynchronous()
      modifies this
      ensures Valid()
      ensures startedCollection == old(startedCollection) && finishedCollection == old(finishedCollection)
      ensures processStart == old(processStart) && intervalStart == old(intervalStart) && intervalEnd == old(intervalEnd)
      ensures values == old(values)[key := old(values[key]).(delta := delta)]
      ensures old(values[key].delta) != null ==> delta == old(values[key].delta)
      ensures old(values[key].delta) == null ==> fresh(delta) && delta.sum == 0 && delta.kind == aggregatorFor(key.descriptor).kind
      ensures forall k :: k in old(values) && k != key ==> View(values[k]) == old(View(values[k]))
    {
      var value := values[key];
      if value.delta != null {
        return value.delta;
      }
      delta := new Aggregator(aggregatorFor(key.descriptor));
      value := value.(delta := delta);
      SeparatePut(values, key, value);
      values := values[key := value];
    }

    method StartCollection()
      requires Valid()
      modifies this
      ensures Valid()
      ensures startedCollection == old(startedCollection) + 1
      ensures intervalStart == if old(startedCollection) != 0 then old(intervalEnd) else old(intervalStart)
      ensures values == old(values) && finishedCollection == old(finishedCollection)
      ensures processStart == old(processStart) && intervalEnd == old(intervalEnd)
    {
      if startedCollection != 0 {
        intervalStart := intervalEnd;
      }
      startedCollection := startedCollection + 1;
    }

    method FinishCollection(now: int) returns (err: Option<Error>)
      requires Valid()
      modifies this, Footprint()
      ensures Valid()
      ensures intervalEnd == now
      ensures startedCollection == old(startedCollection)
      ensures processStart == old(processStart) && intervalStart == old(intervalStart)
      // unbalanced counters: nothing else happens
      ensures !old(InRound()) ==>
                && err == Some(InconsistentState)
                && finishedCollection == old(finishedCollection)
                && values == old(values)
                && (forall k :: k in values ==> View(values[k]) == old(View(values[k])))
      // otherwise the round is finished exactly once, even when reconciliation fails
      ensures old(InRound()) ==> finishedCollection == old(finishedCollection) + 1
      ensures old(InRound()) ==>
                (err == None <==> forall k :: k in old(values) && old(values[k]).stateful ==> Reconcilable(k, old(values[k])))
      ensures old(InRound()) && err != None ==> err == Some(NoSubtraction) || err == Some(InconsistentType)
      ensures old(InRound()) && err == Some(NoSubtraction) ==>
                exists k :: k in old(values) && old(values[k]).stateful && CannotSubtract(k, old(values[k]))
      ensures old(InRound()) && err == Some(InconsistentType) ==>
                exists k :: k in old(values) && old(values[k]).stateful
                            && !Reconcilable(k, old(values[k])) && !CannotSubtract(k, old(values[k]))
      // records are only ever removed, never altered; stateful ones are never removed
      ensures forall k :: k in values ==> k in old(values) && values[k] == old(values[k])
      ensures forall k :: k in old(values) && old(values[k]).stateful ==> k in values
      ensures forall k :: k in values && !values[k].stateful ==> View(values[k]) == old(View(values[k]))
      // on success: stale stateless records are evicted and stateful ones reconciled
      ensures old(InRound()) && err == None ==>
                forall k :: k in old(values) ==>
                  (k in values <==> old(values[k]).stateful || old(values[k]).updated == old(finishedCollection))
      ensures old(InRound()) && err == None ==>
                forall k :: k in values && values[k].stateful ==>
                  Retained(k.descriptor.kind.PrecomputedSum(), old(View(values[k])))
                  && View(values[k]) == Reconcile(k.descriptor.kind.PrecomputedSum(), old(View(values[k])))
    {
      if startedCollection != finishedCollection + 1 {
        intervalEnd := now;
        return Some(InconsistentState);
      }
      err := SettleAll();
      CloseRound(now);
    }

    /** Ends the round: the interval ends now, and the deferred increment of `finishedCollection`. */
    method CloseRound(now: int)
      requires Valid() && InRound()
      modifies this
      ensures Valid()
      ensures values == old(values) && intervalEnd == now && finishedCollection == old(finishedCollection) + 1
      ensures forall k :: k in values ==> View(values[k]) == old(View(values[k]))
      ensures startedCollection == old(startedCollection)
      ensures processStart == old(processStart) && intervalStart == old(intervalStart)
    {
      intervalEnd := now;
      finishedCollection := finishedCollection + 1;
    }

    /**
     * Progress of the reconciliation loop: records were only removed, a stale
     * stateless record is gone once visited, and a visited stateful record holds
     * the reconciliation of the sums it had at the start.
     */
    ghost predicate Settling(start: map<StateKey, StateValue>, before: map<StateKey, Sums>, remaining: set<StateKey>)
      reads this, Footprint()
    {
      && Valid()
      && remaining <= values.Keys
      && before.Keys == start.Keys
      && (forall k :: k in values ==> k in start && values[k] == start[k])
      && (forall k :: k in start ==>
            (k in values <==> k in remaining || start[k].stateful || start[k].updated == finishedCollection))
      && (forall k :: k in values ==>
            if k in remaining || !values[k].stateful then View(values[k]) == before[k]
            else Reconcilable(k, values[k])
                 && Retained(k.descriptor.kind.PrecomputedSum(), before[k])
                 && View(values[k]) == Reconcile(k.descriptor.kind.PrecomputedSum(), before[k]))
    }

    /** The reconciliation loop of FinishCollection, run before the round counter moves. */
    method SettleAll() returns (err: Option<Error>)
      requires Valid()
      modifies this, Footprint()
      ensures Valid()
      ensures startedCollection == old(startedCollection) && finishedCollection == old(finishedCollection)
      ensures processStart == old(processStart) && intervalStart == old(intervalStart) && intervalEnd == old(intervalEnd)
      ensures err == None <==> forall k :: k in old(values) && old(values[k]).stateful ==> Reconcilable(k, old(values[k]))
      ensures err != None ==> err == Some(NoSubtraction) || err == Some(InconsistentType)
      ensures err == Some(NoSubtraction) ==>
                exists k :: k in old(values) && old(values[k]).stateful && CannotSubtract(k, old(values[k]))
      ensures err == Some(InconsistentType) ==>
                exists k :: k in old(values) && old(values[k]).stateful
                            && !Reconcilable(k, old(values[k])) && !CannotSubtract(k, old(values[k]))
      ensures forall k :: k in values ==> k in old(values) && values[k] == old(values[k])
      ensures forall k :: k in old(values) && old(values[k]).stateful ==> k in values
      ensures forall k :: k in values && !values[k].stateful ==> View(values[k]) == old(View(values[k]))
      ensures err == None ==>
                forall k :: k in old(values) ==>
                  (k in values <==> old(values[k]).stateful || old(values[k]).updated == finishedCollection)
      ensures err == None ==>
                forall k :: k in values && values[k].stateful ==>
                  Retained(k.descriptor.kind.PrecomputedSum(), old(View(values[k])))
                  && View(values[k]) == Reconcile(k.descriptor.kind.PrecomputedSum(), old(View(values[k])))
    {
      ghost var start := values;
      ghost var before := map k | k in values :: View(values[k]);
      var remaining := values.Keys;
      while remaining != {}
        invariant Valid()
        invariant startedCollection == old(startedCollection) && finishedCollection == old(finishedCollection)
        invariant processStart == old(processStart) && intervalStart == old(intervalStart) && intervalEnd == old(intervalEnd)
        invariant Settling(start, before, remaining)
        decreases remaining
      {
        var key :| key in remaining;
        var e := Settle(key, start, before, remaining);
        remaining := remaining - {key};
        if e != None {
          return e;
        }
      }
      return None;
    }

    /** Evicts a stale stateless record, or reconciles a stateful one. */
    method Settle(key: StateKey, ghost start: map<StateKey, StateValue>, ghost before: map<StateKey, Sums>,
                  ghost remaining: set<StateKey>)
      returns (err: Option<Error>)
      requires Valid() && key in values
      requires key in remaining && Settling(start, before, remaining)
      modifies this, RefsAt(key)
      ensures Valid()
      ensures startedCollection == old(startedCollection) && finishedCollection == old(finishedCollection)
      ensures processStart == old(processStart) && intervalStart == old(intervalStart) && intervalEnd == old(intervalEnd)
      ensures values == if old(values[key]).stateful || old(values[key]).updated == finishedCollection
                        then old(values) else old(values) - {key}
      ensures forall k :: k in values && k != key ==> View(values[k]) == old(View(values[k]))
      ensures !old(values[key]).stateful && key in values ==> View(values[key]) == old(View(values[key]))
      ensures old(values[key]).stateful ==>
                && (err == None <==> Reconcilable(key, values[key]))
                && (err == Some(NoSubtraction) <==> CannotSubtract(key, values[key]))
                && (err == Some(InconsistentType) <==> !Reconcilable(key, values[key]) && !CannotSubtract(key, values[key]))
                && (err == None ==>
                      Retained(key.descriptor.kind.PrecomputedSum(), old(View(values[key])))
                      && View(values[key]) == Reconcile(key.descriptor.kind.PrecomputedSum(), old(View(values[key]))))
      ensures !old(values[key]).stateful ==> err == None
      ensures err == None ==> Settling(start, before, remaining - {key})
    {
      if !values[key].stateful {
        if values[key].updated != finishedCollection {
          SeparateRemove(values, key);
          values := values - {key};
        }
        return None;
      }
      err := ReconcileRecord(key);
    }

    /**
     * Brings a stateful record's cumulative and delta aggregators up to date
     * with its current one.
     */
    method ReconcileRecord(key: StateKey) returns (err: Option<Error>)
      requires Valid() && key in values && values[key].stateful
      modifies RefsAt(key)
      ensures err == None <==> Reconcilable(key, values[key])
      ensures err == Some(NoSubtraction) <==> CannotSubtract(key, values[key])
      ensures err == Some(InconsistentType) <==> !Reconcilable(key, values[key]) && !CannotSubtract(key, values[key])
      ensures err == None ==>
                Retained(key.descriptor.kind.PrecomputedSum(), old(View(values[key])))
                && View(values[key]) == Reconcile(key.descriptor.kind.PrecomputedSum(), old(View(values[key])))
      ensures forall k :: k in values && k != key ==> View(values[k]) == old(View(values[k]))
    {
      var value := values[key];
      StatefulIsRetained(key, value);
      OthersApart(values, key);
      var cumulative: Aggregator := value.cumulative;
      if key.descriptor.kind.PrecomputedSum() {
        // delta = current cumulative value - previous cumulative value
        var delta: Aggregator := value.delta;
        if value.current.subtracts {
          err := value.current.Subtract(cumulative, delta);
          if err == None {
            err := value.current.SynchronizedCopy(cumulative);
          }
        } else {
          err := Some(NoSubtraction);
        }
      } else {
        // cumulative value = previous cumulative value + current delta
        err := cumulative.Merge(value.current);
      }
    }

    /** What ForEach reports for one record: an invalid export kind, or the visitor's error unless NoData. */
    function Outcome(exporter: (Descriptor, Kind) -> ExportKind, visit: Record -> Option<Error>, k: StateKey): Option<Error>
      reads this
      requires k in values && Exportable(exporter, k, values[k])
    {
      var v := values[k];
      var ek := exporter(k.descriptor, v.current.kind);
      match ChooseExport(ek, k.descriptor.kind, v.stateful)
      case None => Some(InvalidExporterKind(ek))
      case Some(c) =>
        var agg: Aggregator := match c.slot
          case CurrentSlot => v.current
          case CumulativeSlot => v.cumulative
          case DeltaSlot => v.delta;
        var start := if c.sinceProcessStart then processStart else intervalStart;
        Swallow(visit(Record(k.descriptor, v.labels, v.resource, agg, start, intervalEnd)))
    }

    /**
     * Visits every record between rounds, in an arbitrary order, and stops at the
     * first error. `order` lists the records considered, in order.
     */
    method ForEach(exporter: (Descriptor, Kind) -> ExportKind, visit: Record -> Option<Error>)
      returns (err: Option<Error>, ghost order: seq<StateKey>)
      requires Valid()
      requires startedCollection == finishedCollection ==>
                 forall k {:trigger Exportable(exporter, k, values[k])} :: k in values ==> Exportable(exporter, k, values[k])
      ensures startedCollection != finishedCollection ==> err == Some(InconsistentState) && order == []
      ensures forall i :: 0 <= i < |order| ==> order[i] in values
      ensures forall i, j :: 0 <= i < j < |order| ==> order[i] != order[j]
      ensures forall i :: 0 <= i < |order| - 1 ==> Outcome(exporter, visit, order[i]) == None
      ensures startedCollection == finishedCollection && err == None ==>
                forall k :: k in values ==> k in order && Outcome(exporter, visit, k) == None
      ensures startedCollection == finishedCollection && err != None ==>
                order != [] && err == Outcome(exporter, visit, order[|order| - 1])
    {
      order := [];
      if startedCollection != finishedCollection {
        return Some(InconsistentState), order;
      }
      var remaining := values.Keys;
      while remaining != {}
        invariant remaining <= values.Keys
        invariant forall i :: 0 <= i < |order| ==> order[i] in values && order[i] !in remaining
        invariant forall i, j :: 0 <= i < j < |order| ==> order[i] != order[j]
        invariant forall k :: k in values && k !in remaining ==> k in order
        invariant forall i :: 0 <= i < |order| ==> Outcome(exporter, visit, order[i]) == None
        decreases remaining
      {
        var key :| key in remaining;
        AppendUnvisited(order, remaining, key);
        remaining := remaining - {key};
        order := order + [key];
        var e := ExportOne(exporter, visit, key);
        if e != None {
          return e, order;
        }
      }
      return None, order;
    }

    /**
     * One iteration of ForEach: the export kind selects the aggregator and the
     * interval start, and the record is handed to the visitor.
     */
    method ExportOne(exporter: (Descriptor, Kind) -> ExportKind, visit: Record -> Option<Error>, key: StateKey)
      returns (err: Option<Error>)
      requires key in values && Exportable(exporter, key, values[key])
      ensures err == Outcome(exporter, visit, key)
    {
      var value := values[key];
      var mkind := key.descriptor.kind;
      var agg: Aggregator;
      var start: int;
      var ekind := exporter(key.descriptor, value.current.kind);
      match ekind {
        case PassThroughExporter =>
          // no state is required: pass the checkpointed value through
          agg := value.current;
          start := if mkind.PrecomputedSum() then processStart else intervalStart;
        case CumulativeExporter =>
          agg := if value.stateful then value.cumulative else value.current;
          start := processStart;
        case DeltaExporter =>
          agg := if mkind.PrecomputedSum() then value.delta else value.current;
          start := intervalStart;
        case Unknown(_) =>
          return Some(InvalidExporterKind(ekind));
      }
      var e := visit(Record(key.descriptor, value.labels, value.resource, agg, start, intervalEnd));
      err := if e == Some(NoData) then None else e;
    }
  }

  /**
   * Two producers report a synchronous instrument in the same round, on a
   * record that has not been reported yet in this round: the first report is
   * kept by reference, the second moves it into the scratch delta and merges
   * into it, so the record ends up holding both contributions.
   */
  method TwoReportsInOneRound(it: Integrator, a1: Accumulation, a2: Accumulation)
    returns (e1: Option<Error>, e2: Option<Error>)
    requires it.Valid() && it.InRound()
    requires KeyOf(a1) == KeyOf(a2) && KeyOf(a1) in it.values
    requires it.values[KeyOf(a1)].updated != it.finishedCollection
    requires !a1.descriptor.kind.Asynchronous()
    requires a1.aggregator != a2.aggregator
    requires it.Lendable(a1.aggregator, KeyOf(a1)) && it.Lendable(a2.aggregator, KeyOf(a1))
    modifies it, it.RefsAt(KeyOf(a1)), a1.aggregator
    ensures it.Valid()
    ensures e1 == None
    ensures KeyOf(a1) in it.values && it.values[KeyOf(a1)].delta != null
    ensures var w := it.values[KeyOf(a1)];
            var kind := w.delta.kind;
            && (e2 == None <==> a1.aggregator.kind == kind && a2.aggregator.kind == kind)
            && (e2 == None ==>
                  && w.current == w.delta
                  && w.delta.sum == old(a1.aggregator.sum) + old(a2.aggregator.sum)
                  && a1.aggregator.sum == 0)
  {
    var key := KeyOf(a1);
    ghost var sum1, sum2 := a1.aggregator.sum, a2.aggregator.sum;
    e1 := it.Process(a1);
    assert a1.aggregator.sum == sum1 && a2.aggregator.sum == sum2;
    assert it.InRound() && key in it.values;
    assert it.values[key].updated == it.finishedCollection;
    assert it.values[key].current == a1.aggregator;
    assert it.values[key].delta != a1.aggregator;
    assert a2.aggregator !in it.RefsAt(key);
    e2 := it.Process(a2);
    assert a2.aggregator.sum == sum2;
  }
}
