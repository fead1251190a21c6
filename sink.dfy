/**
 * The part of the telemetry SDK the pipeline uses: metric points, the
 * entity that collects them, and the SDK's refusals (`sdk_metric.NewCount`,
 * `sdk_metric.NewGauge`, `Metric.AddDimension`), which are outside the
 * model and therefore given as predicates.
 */
module Sink {
  import opened Wrappers

  datatype Kind = CountKind | GaugeKind

  /** A registered metric: kind, full name, value, timestamp in Unix milliseconds, optional dimension key and value. */
  datatype Point = Point(kind: Kind, name: string, value: real, timestampMs: int, dimension: Option<(string, string)>)

  /**
   * The SDK's refusals: `rejectsMetric` for creating a count or gauge with
   * this name, value and timestamp; `rejectsDimension` for attaching this
   * dimension key and value.
   */
  datatype Sdk = Sdk(rejectsMetric: (Kind, string, real, int) -> bool, rejectsDimension: (string, string) -> bool)

  /** Whether the SDK refuses to create point `p` or, when `p` has a dimension, to attach it. */
  predicate Rejected(sdk: Sdk, p: Point)
  {
    || sdk.rejectsMetric(p.kind, p.name, p.value, p.timestampMs)
    || (p.dimension.Some? && sdk.rejectsDimension(p.dimension.value.0, p.dimension.value.1))
  }

  /** The entity that metrics are attached to; only its list of metrics is modelled. */
  class Entity {
    var metrics: seq<Point>

    constructor ()
      ensures metrics == []
    {
      metrics := [];
    }

    /** `entity.AddMetric`: appends, and cannot fail. */
    method AddMetric(p: Point)
      modifies this
      ensures metrics == old(metrics) + [p]
    {
      metrics := metrics + [p];
    }
  }
}
