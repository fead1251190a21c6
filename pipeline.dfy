/**
 * The extraction pipeline: it walks one snapshot through the catalog and
 * registers each call's point on the entity, stopping at the first point
 * the SDK refuses (src/metrics.go).
 */
module Pipeline {
  import opened Wrappers
  import opened Types
  import opened Errors
  import opened Catalog
  import opened Sink

  const MetricPrefix := "conviva."

  /** The key and value `newMetric` attaches when a dimension is given. */
  function DimensionTag(d: Option<Dimension>): Option<(string, string)>
  {
    if d.Some? then Some((d.value.key, d.value.value)) else None
  }

  /**
   * The point `newCountMetric` or `newGaugeMetric` registers for call `e`:
   * the prefixed name, the count converted to a float, the timestamp and the
   * dimension tag.
   */
  function Stamp(e: Emission, ts: int, d: Option<Dimension>): Point
  {
    match e
    case AddCount(name, c) => Point(CountKind, MetricPrefix + name, c as real, ts, DimensionTag(d))
    case AddGauge(name, g) => Point(GaugeKind, MetricPrefix + name, g, ts, DimensionTag(d))
  }

  function StampAll(es: seq<Emission>, ts: int, d: Option<Dimension>): seq<Point>
  {
    seq(|es|, i requires 0 <= i < |es| => Stamp(es[i], ts, d))
  }

  /** The concatenation of `ss`, in order. */
  function Flatten<T>(ss: seq<seq<T>>): seq<T>
  {
    if ss == [] then [] else Flatten(ss[..|ss| - 1]) + ss[|ss| - 1]
  }

  /** The points adder `a` attempts for `m`, in order, stamped with `ts` and `d`. */
  function AdderPoints(a: Adder, m: Metrics, ts: int, d: Option<Dimension>): seq<Point>
  {
    StampAll(Emissions(a, m), ts, d)
  }

  /** The points each adder of `adders` attempts for `m`, one sequence per adder. */
  function PointsPerAdder(adders: seq<Adder>, m: Metrics, ts: int, d: Option<Dimension>): seq<seq<Point>>
  {
    seq(|adders|, j requires 0 <= j < |adders| => AdderPoints(adders[j], m, ts, d))
  }

  /** The points the catalog walk over `m` attempts, in order, stamped with `ts` and `d`. */
  function CatalogPoints(adders: seq<Adder>, m: Metrics, ts: int, d: Option<Dimension>): seq<Point>
  {
    Flatten(PointsPerAdder(adders, m, ts, d))
  }

  /** The points `addMetrics` attempts for one flat snapshot: its own timestamp, no dimension. */
  function SnapshotPoints(adders: seq<Adder>, m: Metrics): seq<Point>
  {
    CatalogPoints(adders, m, m.timeStamp.epochMs, None)
  }

  /** The points `addDimensionalMetrics` attempts for one pair of a dimensional series element stamped `ts`. */
  function DimensionalPoints(adders: seq<Adder>, ts: int, dd: DimensionalData): seq<Point>
  {
    CatalogPoints(adders, dd.metrics, ts, Some(dd.dimension))
  }

  predicate AllAccepted(sdk: Sdk, ps: seq<Point>)
  {
    forall p <- ps :: !Rejected(sdk, p)
  }

  /**
   * The points that end up on the entity when `ps` are attempted in order
   * and the first refusal stops the walk: the longest refusal-free prefix.
   */
  function Accepted(sdk: Sdk, ps: seq<Point>): (r: seq<Point>)
    ensures |r| <= |ps| && r == ps[..|r|]
    ensures AllAccepted(sdk, r)
    ensures |r| < |ps| ==> Rejected(sdk, ps[|r|])
  {
    if ps == [] || Rejected(sdk, ps[0]) then [] else [ps[0]] + Accepted(sdk, ps[1..])
  }

  /** The error of attempting `ps` in order: none, or the refusal of the first refused point. */
  function SinkError(sdk: Sdk, ps: seq<Point>): (e: Option<Error>)
    ensures e.None? <==> AllAccepted(sdk, ps)
    ensures e.Some? ==> e.value == SinkRejected(ps[|Accepted(sdk, ps)|].name)
  {
    var r := Accepted(sdk, ps);
    if |r| == |ps| then None else Some(SinkRejected(ps[|r|].name))
  }

  /** The points of attempting `a + b`: those of `a`, and then those of `b` only if all of `a` was accepted. */
  lemma {:induction false} AcceptedConcat(sdk: Sdk, a: seq<Point>, b: seq<Point>)
    ensures Accepted(sdk, a + b) == if AllAccepted(sdk, a) then a + Accepted(sdk, b) else Accepted(sdk, a)
  {
    if a == [] {
      assert a + b == b;
    } else if Rejected(sdk, a[0]) {
      assert (a + b)[0] == a[0];
    } else {
      assert (a + b)[0] == a[0] && (a + b)[1..] == a[1..] + b;
      AcceptedConcat(sdk, a[1..], b);
      assert AllAccepted(sdk, a) == AllAccepted(sdk, a[1..]) by {
        assert a == [a[0]] + a[1..];
      }
    }
  }

  /** Attempting `a + b` is attempting `a`, and then `b` only if all of `a` was accepted. */
  lemma AcceptedAppend(sdk: Sdk, a: seq<Point>, b: seq<Point>)
    ensures Accepted(sdk, a + b) == if AllAccepted(sdk, a) then a + Accepted(sdk, b) else Accepted(sdk, a)
    ensures SinkError(sdk, a + b) == if AllAccepted(sdk, a) then SinkError(sdk, b) else SinkError(sdk, a)
  {
    AcceptedConcat(sdk, a, b);
    var r := Accepted(sdk, a + b);
    if AllAccepted(sdk, a) {
      var rb := Accepted(sdk, b);
      if |rb| < |b| {
        assert (a + b)[|r|] == b[|rb|];
      }
    } else {
      var ra := Accepted(sdk, a);
      assert SinkError(sdk, a).Some?;
      assert (a + b)[|r|] == a[|ra|];
    }
  }

  /** A walk none of whose points is refused registers all of them. */
  lemma AcceptedAll(sdk: Sdk, ps: seq<Point>)
    requires AllAccepted(sdk, ps)
    ensures Accepted(sdk, ps) == ps
  {
  }

  /** A walk whose first `i` points were accepted and whose point `i` is refused stops there. */
  lemma StopsAtRefusal(sdk: Sdk, ps: seq<Point>, i: nat)
    requires i < |ps| && AllAccepted(sdk, ps[..i]) && Rejected(sdk, ps[i])
    ensures Accepted(sdk, ps) == ps[..i]
    ensures SinkError(sdk, ps) == Some(SinkRejected(ps[i].name))
  {
    assert ps == ps[..i] + ps[i..];
    AcceptedAppend(sdk, ps[..i], ps[i..]);
  }

  /** A walk of `a + b + c` that accepts all of `a` and refuses a point of `b` never reaches `c`. */
  lemma StopsInMiddle(sdk: Sdk, a: seq<Point>, b: seq<Point>, c: seq<Point>)
    requires AllAccepted(sdk, a) && !AllAccepted(sdk, b)
    ensures Accepted(sdk, a + b + c) == a + Accepted(sdk, b)
    ensures SinkError(sdk, a + b + c) == SinkError(sdk, b)
  {
    assert a + b + c == a + (b + c);
    AcceptedAppend(sdk, a, b + c);
    AcceptedAppend(sdk, b, c);
  }

  lemma {:induction false} FlattenAppend<T>(a: seq<seq<T>>, b: seq<seq<T>>)
    ensures Flatten(a + b) == Flatten(a) + Flatten(b)
    decreases |b|
  {
    if b == [] {
      assert a + b == a;
    } else {
      assert (a + b)[..|a + b| - 1] == a + b[..|b| - 1];
      FlattenAppend(a, b[..|b| - 1]);
    }
  }

  lemma {:induction false} FlattenSilent<T>(ss: seq<seq<T>>)
    requires forall i :: 0 <= i < |ss| ==> ss[i] == []
    ensures Flatten(ss) == []
  {
    if ss != [] {
      FlattenSilent(ss[..|ss| - 1]);
    }
  }

  /** The concatenation of the first `i + 1` pieces is that of the first `i`, then piece `i`. */
  lemma FlattenStep<T>(ss: seq<seq<T>>, i: nat)
    requires i < |ss|
    ensures Flatten(ss[..i + 1]) == Flatten(ss[..i]) + ss[i]
  {
    assert ss[..i + 1][..i] == ss[..i];
  }

  /** The concatenation of all pieces split around piece `i`. */
  lemma FlattenSplit<T>(ss: seq<seq<T>>, i: nat)
    requires i < |ss|
    ensures Flatten(ss) == Flatten(ss[..i]) + ss[i] + Flatten(ss[i + 1..])
  {
    assert ss == ss[..i + 1] + ss[i + 1..];
    FlattenAppend(ss[..i + 1], ss[i + 1..]);
    FlattenStep(ss, i);
  }

  /** A walk over pieces that gets through the first `i` and is refused within piece `i` stops there. */
  lemma WalkStops(sdk: Sdk, pieces: seq<seq<Point>>, i: nat)
    requires i < |pieces|
    requires AllAccepted(sdk, Flatten(pieces[..i])) && !AllAccepted(sdk, pieces[i])
    ensures Accepted(sdk, Flatten(pieces)) == Flatten(pieces[..i]) + Accepted(sdk, pieces[i])
    ensures SinkError(sdk, Flatten(pieces)) == SinkError(sdk, pieces[i])
  {
    FlattenSplit(pieces, i);
    StopsInMiddle(sdk, Flatten(pieces[..i]), pieces[i], Flatten(pieces[i + 1..]));
  }

  /** A walk over pieces that gets through the first `i` and through piece `i` has got through the first `i + 1`. */
  lemma WalkContinues(sdk: Sdk, pieces: seq<seq<Point>>, i: nat)
    requires i < |pieces|
    requires AllAccepted(sdk, Flatten(pieces[..i])) && AllAccepted(sdk, pieces[i])
    ensures Accepted(sdk, pieces[i]) == pieces[i]
    ensures Flatten(pieces[..i + 1]) == Flatten(pieces[..i]) + pieces[i]
    ensures AllAccepted(sdk, Flatten(pieces[..i + 1]))
  {
    FlattenStep(pieces, i);
    AcceptedAll(sdk, pieces[i]);
  }

  lemma AppendAssociates<T>(a: seq<T>, b: seq<T>, c: seq<T>)
    ensures a + b + c == a + (b + c)
  {
  }

  /** A step of the walk over pieces that is refused within piece `i` leaves the entity as the whole walk does. */
  lemma StepStops(sdk: Sdk, pieces: seq<seq<Point>>, i: nat, start: seq<Point>, before: seq<Point>, after: seq<Point>)
    requires i < |pieces|
    requires before == start + Flatten(pieces[..i]) && AllAccepted(sdk, Flatten(pieces[..i]))
    requires after == before + Accepted(sdk, pieces[i]) && SinkError(sdk, pieces[i]).Some?
    ensures after == start + Accepted(sdk, Flatten(pieces)) && SinkError(sdk, pieces[i]) == SinkError(sdk, Flatten(pieces))
  {
    WalkStops(sdk, pieces, i);
    AppendAssociates(start, Flatten(pieces[..i]), Accepted(sdk, pieces[i]));
  }

  /** A step of the walk over pieces that gets through piece `i` extends the registered prefix by it. */
  lemma StepContinues(sdk: Sdk, pieces: seq<seq<Point>>, i: nat, start: seq<Point>, before: seq<Point>, after: seq<Point>)
    requires i < |pieces|
    requires before == start + Flatten(pieces[..i]) && AllAccepted(sdk, Flatten(pieces[..i]))
    requires after == before + Accepted(sdk, pieces[i]) && SinkError(sdk, pieces[i]).None?
    ensures after == start + Flatten(pieces[..i + 1]) && AllAccepted(sdk, Flatten(pieces[..i + 1]))
  {
    WalkContinues(sdk, pieces, i);
    AppendAssociates(start, Flatten(pieces[..i]), pieces[i]);
  }

  /** `newMetric`: attaches the dimension, if one is given, then adds the metric to the entity. */
  method NewMetric(entity: Entity, dimension: Option<Dimension>, metric: Point, sdk: Sdk) returns (err: Option<Error>)
    requires metric.dimension.None?
    modifies entity
    ensures var p := metric.(dimension := DimensionTag(dimension));
      if dimension.Some? && sdk.rejectsDimension(dimension.value.key, dimension.value.value)
      then err == Some(SinkRejected(metric.name)) && entity.metrics == old(entity.metrics)
      else err.None? && entity.metrics == old(entity.metrics) + [p]
  {
    var p := metric;
    if dimension.Some? {
      if sdk.rejectsDimension(dimension.value.key, dimension.value.value) {
        return Some(SinkRejected(metric.name));
      }
      p := p.(dimension := Some((dimension.value.key, dimension.value.value)));
    }
    entity.AddMetric(p);
    err := None;
  }

  /** `newCountMetric`: creates the prefixed count, then registers it with `newMetric`. */
  method NewCountMetric(entity: Entity, timestamp: int, metricName: string, count: Int64, dimension: Option<Dimension>, sdk: Sdk)
    returns (err: Option<Error>)
    modifies entity
    ensures var ps := [Stamp(AddCount(metricName, count), timestamp, dimension)];
      entity.metrics == old(entity.metrics) + Accepted(sdk, ps) && err == SinkError(sdk, ps)
  {
    var name := MetricPrefix + metricName;
    if sdk.rejectsMetric(CountKind, name, count as real, timestamp) {
      return Some(SinkRejected(name));
    }
    err := NewMetric(entity, dimension, Point(CountKind, name, count as real, timestamp, None), sdk);
  }

  /** `newGaugeMetric`: creates the prefixed gauge, then registers it with `newMetric`. */
  method NewGaugeMetric(entity: Entity, timestamp: int, metricName: string, value: real, dimension: Option<Dimension>, sdk: Sdk)
    returns (err: Option<Error>)
    modifies entity
    ensures var ps := [Stamp(AddGauge(metricName, value), timestamp, dimension)];
      entity.metrics == old(entity.metrics) + Accepted(sdk, ps) && err == SinkError(sdk, ps)
  {
    var name := MetricPrefix + metricName;
    if sdk.rejectsMetric(GaugeKind, name, value, timestamp) {
      return Some(SinkRejected(name));
    }
    err := NewMetric(entity, dimension, Point(GaugeKind, name, value, timestamp, None), sdk);
  }

  /** The `addCount` and `addGauge` callbacks `createMetricsFunc` hands to its function. */
  method Emit(entity: Entity, timestamp: int, dimension: Option<Dimension>, call: Emission, sdk: Sdk)
    returns (err: Option<Error>)
    modifies entity
    ensures var ps := [Stamp(call, timestamp, dimension)];
      entity.metrics == old(entity.metrics) + Accepted(sdk, ps) && err == SinkError(sdk, ps)
  {
    match call
    case AddCount(name, c) => err := NewCountMetric(entity, timestamp, name, c, dimension, sdk);
    case AddGauge(name, g) => err := NewGaugeMetric(entity, timestamp, name, g, dimension, sdk);
  }

  /** The calls of a `createMetricsFunc` function, in order, each made only if the one before it succeeded. */
  method RunCalls(entity: Entity, timestamp: int, dimension: Option<Dimension>, calls: seq<Emission>, sdk: Sdk)
    returns (err: Option<Error>)
    modifies entity
    ensures var ps := StampAll(calls, timestamp, dimension);
      entity.metrics == old(entity.metrics) + Accepted(sdk, ps) && err == SinkError(sdk, ps)
  {
    ghost var ps := StampAll(calls, timestamp, dimension);
    var i := 0;
    while i < |calls|
      invariant 0 <= i <= |calls|
      invariant entity.metrics == old(entity.metrics) + ps[..i]
      invariant AllAccepted(sdk, ps[..i])
    {
      err := Emit(entity, timestamp, dimension, calls[i], sdk);
      if err.Some? {
        StopsAtRefusal(sdk, ps, i);
        return;
      }
      assert ps[..i + 1] == ps[..i] + [ps[i]];
      i := i + 1;
    }
    assert ps[..i] == ps;
    err := None;
  }

  /** One catalog entry applied to a snapshot: the closure an `AddMetricFunc` is. */
  method RunAdder(entity: Entity, timestamp: int, dimension: Option<Dimension>, m: Metrics, adder: Adder, sdk: Sdk)
    returns (err: Option<Error>)
    modifies entity
    ensures var ps := AdderPoints(adder, m, timestamp, dimension);
      entity.metrics == old(entity.metrics) + Accepted(sdk, ps) && err == SinkError(sdk, ps)
  {
    match adder
    case CountAdder(name, f) =>
      var c := GetCount(m, f);
      if c.Some? {
        err := NewCountMetric(entity, timestamp, name, c.value.value, dimension, sdk);
      } else {
        err := None;
      }
    case GaugeAdder(name, f) =>
      var g := GetGauge(m, f);
      if g.Some? {
        err := NewGaugeMetric(entity, timestamp, name, g.value.value, dimension, sdk);
      } else {
        err := None;
      }
    case CountPercentageAdder(_, _) =>
      err := RunCalls(entity, timestamp, dimension, Emissions(adder, m), sdk);
    case MetricsAdder(fn) =>
      err := RunCalls(entity, timestamp, dimension, Calls(fn, m), sdk);
  }

  /** Adder `i` of `adders` applied to `m`: the points it attempts are piece `i` of the walk. */
  method ApplyAdder(entity: Entity, timestamp: int, dimension: Option<Dimension>, m: Metrics, adders: seq<Adder>, i: nat, sdk: Sdk,
                    ghost pieces: seq<seq<Point>>)
    returns (err: Option<Error>)
    requires i < |adders| && pieces == PointsPerAdder(adders, m, timestamp, dimension)
    modifies entity
    ensures entity.metrics == old(entity.metrics) + Accepted(sdk, pieces[i]) && err == SinkError(sdk, pieces[i])
  {
    err := RunAdder(entity, timestamp, dimension, m, adders[i], sdk);
  }

  /** The loop `addMetrics` and `addDimensionalMetrics` share: every adder in order, stopping at the first error. */
  method ApplyAdders(entity: Entity, timestamp: int, dimension: Option<Dimension>, m: Metrics, adders: seq<Adder>, sdk: Sdk)
    returns (err: Option<Error>)
    modifies entity
    ensures var ps := Flatten(PointsPerAdder(adders, m, timestamp, dimension));
      entity.metrics == old(entity.metrics) + Accepted(sdk, ps) && err == SinkError(sdk, ps)
  {
    ghost var pieces := PointsPerAdder(adders, m, timestamp, dimension);
    ghost var start := entity.metrics;
    err := None;
    var i := 0;
    assert pieces[..0] == [];
    while i < |adders| && err.None?
      invariant 0 <= i <= |adders| == |pieces|
      invariant err.None? ==> entity.metrics == start + Flatten(pieces[..i]) && AllAccepted(sdk, Flatten(pieces[..i]))
      invariant err.Some? ==> entity.metrics == start + Accepted(sdk, Flatten(pieces)) && err == SinkError(sdk, Flatten(pieces))
    {
      ghost var before := entity.metrics;
      err := ApplyAdder(entity, timestamp, dimension, m, adders, i, sdk, pieces);
      if err.Some? {
        StepStops(sdk, pieces, i, start, before, entity.metrics);
      } else {
        StepContinues(sdk, pieces, i, start, before, entity.metrics);
      }
      i := i + 1;
    }
    assert err.None? ==> pieces[..i] == pieces;
  }

  /** `addMetrics`: every catalog entry in order on a flat snapshot, stamped with its own time and no dimension. */
  method AddMetrics(entity: Entity, adders: seq<Adder>, metrics: Metrics, sdk: Sdk) returns (err: Option<Error>)
    modifies entity
    ensures entity.metrics == old(entity.metrics) + Accepted(sdk, SnapshotPoints(adders, metrics))
    ensures err == SinkError(sdk, SnapshotPoints(adders, metrics))
  {
    err := ApplyAdders(entity, metrics.timeStamp.epochMs, None, metrics, adders, sdk);
  }

  /** `addDimensionalMetrics`: every catalog entry in order on one pair, stamped with `timestamp` and the pair's dimension. */
  method AddDimensionalMetrics(entity: Entity, adders: seq<Adder>, timestamp: int, dimensionData: DimensionalData, sdk: Sdk)
    returns (err: Option<Error>)
    modifies entity
    ensures entity.metrics == old(entity.metrics) + Accepted(sdk, DimensionalPoints(adders, timestamp, dimensionData))
    ensures err == SinkError(sdk, DimensionalPoints(adders, timestamp, dimensionData))
  {
    err := ApplyAdders(entity, timestamp, Some(dimensionData.dimension), dimensionData.metrics, adders, sdk);
  }
}
