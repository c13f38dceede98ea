/**
 * The numeric meaning of the integrator's bookkeeping, stated on values:
 * how one collection round reconciles a stateful record's sums, what many
 * rounds add up to, and which aggregator an exporter is handed.
 */
module Accounting {
  import opened Wrappers
  import opened Aggregation

  /** The sums held by a record's current, delta and cumulative aggregators (None: no aggregator). */
  datatype Sums = Sums(current: int, delta: Option<int>, cumulative: Option<int>)

  /** A stateful record has a cumulative aggregator, and a precomputed sum also has a delta one. */
  predicate Retained(precomputed: bool, s: Sums) {
    s.cumulative.Some? && (precomputed ==> s.delta.Some?)
  }

  /**
   * What finishing a round does to the sums of a stateful record: a precomputed
   * sum derives `delta := current - cumulative` and then moves `current` into
   * `cumulative` (which resets `current`); any other instrument adds `current`
   * into `cumulative`.
   */
  function Reconcile(precomputed: bool, s: Sums): Sums
    requires Retained(precomputed, s)
  {
    if precomputed then
      Sums(0, Some(s.current - s.cumulative.value), Some(s.current))
    else
      s.(cumulative := Some(s.cumulative.value + s.current))
  }

  /** Reconciliation keeps a record's aggregators allocated. */
  lemma ReconcileRetains(precomputed: bool, s: Sums)
    requires Retained(precomputed, s)
    ensures Retained(precomputed, Reconcile(precomputed, s))
  {
  }

  /** Rounds in which the record is reported with the given sums, each followed by reconciliation. */
  function Rounds(precomputed: bool, s: Sums, reports: seq<int>): Sums
    requires Retained(precomputed, s)
    decreases |reports|
  {
    if reports == [] then s
    else
      ReconcileRetains(precomputed, s.(current := reports[0]));
      Rounds(precomputed, Reconcile(precomputed, s.(current := reports[0])), reports[1..])
  }

  /** The delta a precomputed-sum record exposes after each of the given rounds. */
  function DeltaTrace(s: Sums, reports: seq<int>): seq<int>
    requires Retained(true, s)
    decreases |reports|
  {
    if reports == [] then []
    else
      var next := Reconcile(true, s.(current := reports[0]));
      [next.delta.value] + DeltaTrace(next, reports[1..])
  }

  function Total(xs: seq<int>): int
    decreases |xs|
  {
    if xs == [] then 0 else xs[0] + Total(xs[1..])
  }

  /**
   * Cumulative accounting of a delta-reporting instrument: after K rounds the
   * cumulative sum is the starting cumulative plus every reported delta.
   */
  lemma {:induction false} CumulativeIsTotalOfDeltas(s: Sums, reports: seq<int>)
    requires Retained(false, s)
    ensures Rounds(false, s, reports).cumulative == Some(s.cumulative.value + Total(reports))
    decreases |reports|
  {
    if reports != [] {
      var next := Reconcile(false, s.(current := reports[0]));
      CumulativeIsTotalOfDeltas(next, reports[1..]);
    }
  }

  /**
   * Delta accounting of a precomputed sum: the delta of each round is the
   * difference between that round's report and the previous one.
   */
  lemma {:induction false} DeltaIsDifference(s: Sums, reports: seq<int>, i: nat)
    requires Retained(true, s)
    requires i < |reports|
    ensures |DeltaTrace(s, reports)| == |reports|
    ensures DeltaTrace(s, reports)[i] == reports[i] - (if i == 0 then s.cumulative.value else reports[i - 1])
    decreases |reports|
  {
    var next := Reconcile(true, s.(current := reports[0]));
    if i == 0 {
      DeltaTraceLength(next, reports[1..]);
    } else {
      DeltaIsDifference(next, reports[1..], i - 1);
    }
  }

  lemma {:induction false} DeltaTraceLength(s: Sums, reports: seq<int>)
    requires Retained(true, s)
    ensures |DeltaTrace(s, reports)| == |reports|
    decreases |reports|
  {
    if reports != [] {
      DeltaTraceLength(Reconcile(true, s.(current := reports[0])), reports[1..]);
    }
  }

  /**
   * The deltas derived from a precomputed sum telescope: over K rounds they add
   * up to the last report minus the cumulative sum before the first round, and
   * the cumulative aggregator ends holding the last report.
   */
  lemma {:induction false} DeltasTelescope(s: Sums, reports: seq<int>)
    requires Retained(true, s)
    requires reports != []
    ensures Total(DeltaTrace(s, reports)) == reports[|reports| - 1] - s.cumulative.value
    ensures Rounds(true, s, reports).cumulative == Some(reports[|reports| - 1])
    decreases |reports|
  {
    var next := Reconcile(true, s.(current := reports[0]));
    if |reports| > 1 {
      DeltasTelescope(next, reports[1..]);
    }
  }

  /**
   * A precomputed-sum record that is not reported in a round reconciles against
   * its `current` aggregator, which the previous round reset: the round's delta
   * is minus the previous report and the cumulative sum drops to zero.
   */
  lemma UnreportedPrecomputedSumRestarts(s: Sums, report: int)
    requires Retained(true, s)
    ensures var r := Reconcile(true, Reconcile(true, s.(current := report)));
            r.cumulative == Some(0) && r.delta == Some(-report)
  {
  }

  /**
   * A delta-reporting stateful record that is not reported in a round merges its
   * unchanged `current` aggregator again.
   */
  lemma UnreportedDeltaRecordMergesAgain(s: Sums, report: int)
    requires Retained(false, s)
    ensures var r := Reconcile(false, Reconcile(false, s.(current := report)));
            r.cumulative == Some(s.cumulative.value + 2 * report)
  {
  }

  /** Which of a record's aggregators an export reads. */
  datatype Slot = CurrentSlot | CumulativeSlot | DeltaSlot

  /** The aggregator an export reads, and whether its interval starts at process start. */
  datatype Choice = Choice(slot: Slot, sinceProcessStart: bool)

  /** The selection ForEach makes for one record; None for an unrecognised export kind. */
  function ChooseExport(ek: ExportKind, mk: MetricKind, stateful: bool): (c: Option<Choice>)
    ensures c.None? <==> ek.Unknown?
  {
    match ek
    case PassThroughExporter => Some(Choice(CurrentSlot, mk.PrecomputedSum()))
    case CumulativeExporter => Some(Choice(if stateful then CumulativeSlot else CurrentSlot, true))
    case DeltaExporter => Some(Choice(if mk.PrecomputedSum() then DeltaSlot else CurrentSlot, false))
    case Unknown(_) => None
  }

  /** The exported aggregator holds a running total since process start. */
  predicate HoldsCumulative(slot: Slot, mk: MetricKind) {
    slot == CumulativeSlot || (slot == CurrentSlot && mk.PrecomputedSum())
  }

  /**
   * When the export kind is the one that decided the record's statefulness, the
   * chosen aggregator was allocated, it carries the accounting the exporter asks
   * for, and its interval starts at process start exactly when it is cumulative.
   */
  lemma ExportMatchesAccounting(ek: ExportKind, mk: MetricKind)
    requires !ek.Unknown?
    ensures var stateful := MemoryRequired(ek, mk);
            var c := ChooseExport(ek, mk, stateful).value;
            && (c.slot == CumulativeSlot ==> stateful)
            && (c.slot == DeltaSlot ==> stateful && mk.PrecomputedSum())
            && (ek == CumulativeExporter ==> HoldsCumulative(c.slot, mk))
            && (ek == DeltaExporter ==> !HoldsCumulative(c.slot, mk))
            && (c.sinceProcessStart <==> HoldsCumulative(c.slot, mk))
  {
  }
}
