/**
 * Vocabulary shared by the metric export pipeline: aggregation kinds,
 * the sentinel errors, instrument kinds, export kinds, and the abstract
 * aggregator every checkpoint record points at.
 */
module Aggregation {
  import opened Wrappers

  /** Aggregation kinds are plain strings so that user aggregators can add their own. */
  type Kind = string

  /** The errors the integrator and the aggregators return, plus any error a visitor returns. */
  datatype Error =
    | InconsistentState
    | InvalidExporterKind(kind: ExportKind)
    | InconsistentType
    | NoSubtraction
    | NoData
    | Other(code: int)

  /** Instrument kinds of the metric API. */
  datatype MetricKind =
    | ValueRecorderKind
    | ValueObserverKind
    | CounterKind
    | UpDownCounterKind
    | SumObserverKind
    | UpDownSumObserverKind
  {
    /** Observer instruments are called back once per collection. */
    predicate Asynchronous() {
      ValueObserverKind? || SumObserverKind? || UpDownSumObserverKind?
    }

    /** Instruments that report a running (cumulative) total rather than increments. */
    predicate PrecomputedSum() {
      SumObserverKind? || UpDownSumObserverKind?
    }
  }

  /** An instrument descriptor; the integrator keys on the descriptor's identity. */
  class Descriptor {
    const name: string
    const kind: MetricKind

    constructor (name: string, kind: MetricKind)
      ensures this.name == name && this.kind == kind
    {
      this.name := name;
      this.kind := kind;
    }
  }

  /** What an exporter wants to receive. `Unknown` stands for any other value of the enum. */
  datatype ExportKind =
    | PassThroughExporter
    | CumulativeExporter
    | DeltaExporter
    | Unknown(code: int)

  /**
   * An integrator must keep cumulative state exactly when the instrument's
   * accounting style differs from the one the exporter asks for.
   */
  function MemoryRequired(ek: ExportKind, mk: MetricKind): (r: bool)
    ensures r <==> ((ek == CumulativeExporter && !mk.PrecomputedSum())
                    || (ek == DeltaExporter && mk.PrecomputedSum()))
  {
    match ek
    case PassThroughExporter => false
    case CumulativeExporter => !mk.PrecomputedSum()
    case DeltaExporter => mk.PrecomputedSum()
    case Unknown(_) => false
  }

  /** The aggregator implementation an AggregationSelector picks for a descriptor. */
  datatype Implementation = Implementation(kind: Kind, subtracts: bool)

  /**
   * An aggregator reduced to an integer sum. `kind` says which implementation it is
   * (operations between different implementations fail); `subtracts` says whether
   * it implements the Subtractor interface.
   */
  class Aggregator {
    const kind: Kind
    const subtracts: bool
    var sum: int

    constructor (impl: Implementation)
      ensures kind == impl.kind && subtracts == impl.subtracts && sum == 0
    {
      kind := impl.kind;
      subtracts := impl.subtracts;
      sum := 0;
    }

    /** Adds `other`'s state into this aggregator. */
    method Merge(other: Aggregator) returns (err: Option<Error>)
      modifies this
      ensures other.kind != kind ==> err == Some(InconsistentType) && sum == old(sum)
      ensures other.kind == kind ==> err == None && sum == old(sum) + old(other.sum)
    {
      if other.kind != kind {
        return Some(InconsistentType);
      }
      sum := sum + other.sum;
      return None;
    }

    /** Moves this aggregator's state into `dest` and resets this one. */
    method SynchronizedCopy(dest: Aggregator) returns (err: Option<Error>)
      requires dest != this
      modifies this, dest
      ensures dest.kind != kind ==> err == Some(InconsistentType) && sum == old(sum) && dest.sum == old(dest.sum)
      ensures dest.kind == kind ==> err == None && sum == 0 && dest.sum == old(sum)
    {
      if dest.kind != kind {
        return Some(InconsistentType);
      }
      dest.sum := sum;
      sum := 0;
      return None;
    }

    /** Stores this aggregator's state minus `operand`'s into `result`. */
    method Subtract(operand: Aggregator, result: Aggregator) returns (err: Option<Error>)
      requires subtracts
      modifies result
      ensures operand.kind != kind || result.kind != kind ==> err == Some(InconsistentType) && result.sum == old(result.sum)
      ensures operand.kind == kind && result.kind == kind ==> err == None && result.sum == old(sum) - old(operand.sum)
    {
      if operand.kind != kind || result.kind != kind {
        return Some(InconsistentType);
      }
      result.sum := sum - operand.sum;
      return None;
    }
  }
}
