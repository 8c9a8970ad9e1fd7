/**
 * lib/fluent/plugin/in_opentelemetry_metrics.rb: the `opentelemetry_metrics`
 * input plugin, which reports Fluentd's own plugin counters and the
 * process's memory and CPU as one OTLP ExportMetricsServiceRequest.
 *
 * The plugin-info maps MonitorInfo collects from the running engine, the
 * clock, the host name, the process id, the versions and the memory and CPU
 * readings are inputs here. The record is built as typed OTLP values;
 * rendering it as JSON text is a parameter of the timer's emit.
 */
module OpentelemetryMetrics {
  import opened Support
  import opened Constant
  import opened Pipeline

  /** A Ruby Time: whole seconds since the epoch and the nanoseconds within that second. */
  datatype Time = Time(sec: int, nsec: int)

  predicate ValidTime(t: Time) {
    0 <= t.nsec < 1_000_000_000
  }

  /** `Extension#to_nano_sec`. */
  function ToNanoSec(t: Time): int {
    t.sec * 1_000_000_000 + t.nsec
  }

  /** The nanosecond count keeps both parts: the seconds and the remainder read back. */
  lemma ToNanoSecSplits(t: Time)
    requires ValidTime(t)
    ensures ToNanoSec(t) / 1_000_000_000 == t.sec
    ensures ToNanoSec(t) % 1_000_000_000 == t.nsec
  {
    var n := ToNanoSec(t);
    var q := n / 1_000_000_000;
    var r := n % 1_000_000_000;
    assert n == q * 1_000_000_000 + r && 0 <= r < 1_000_000_000;
    assert (q - t.sec) * 1_000_000_000 == t.nsec - r;
  }

  /** Later times give larger counts: the order of times is the order of their counts. */
  lemma ToNanoSecMonotone(a: Time, b: Time)
    requires ValidTime(a) && ValidTime(b)
    ensures (a.sec < b.sec || (a.sec == b.sec && a.nsec <= b.nsec)) <==> ToNanoSec(a) <= ToNanoSec(b)
  {
    if a.sec < b.sec {
      assert (b.sec - a.sec) * 1_000_000_000 >= 1_000_000_000;
    } else if a.sec > b.sec {
      assert (a.sec - b.sec) * 1_000_000_000 >= 1_000_000_000;
    }
  }

  /** A value of a plugin-info map. */
  datatype Value = IntNum(i: int) | FloatNum(repr: string) | Str(s: string) | Bool(b: bool) | Nil

  /** `value.is_a?(Numeric)`. */
  predicate IsNumeric(v: Value) {
    v.IntNum? || v.FloatNum?
  }

  /** `to_s` (and string interpolation), `nil` giving the empty string. */
  function ToS(v: Value): string {
    match v
    case IntNum(i) => IntToString(i)
    case FloatNum(repr) => repr
    case Str(s) => s
    case Bool(b) => if b then "true" else "false"
    case Nil => ""
  }

  /** One entry of `plugins_info_all`: its keys and values in insertion order. */
  type PluginInfo = seq<(string, Value)>

  /** `record[key]`: the value of the first entry with that key, nil when there is none. */
  function Lookup(info: PluginInfo, key: string): Value {
    if |info| == 0 then Nil
    else if info[0].0 == key then info[0].1
    else Lookup(info[1..], key)
  }

  /** A missing key reads as nil, and a value read is the value of an entry with that key. */
  lemma {:induction false} LookupFindsEntry(info: PluginInfo, key: string)
    ensures (forall i :: 0 <= i < |info| ==> info[i].0 != key) ==> Lookup(info, key) == Nil
    ensures Lookup(info, key) != Nil ==> exists i :: 0 <= i < |info| && info[i] == (key, Lookup(info, key))
    decreases |info|
  {
    if |info| > 0 && info[0].0 != key {
      LookupFindsEntry(info[1..], key);
      var v := Lookup(info, key);
      if v != Nil {
        var i :| 0 <= i < |info[1..]| && info[1..][i] == (key, v);
        assert info[i + 1] == (key, v);
      }
      if forall i :: 0 <= i < |info| ==> info[i].0 != key {
        assert forall i :: 0 <= i < |info[1..]| ==> info[1..][i] == info[i + 1];
      }
    }
  }

  /** The numeric entries of an info map, in order. */
  function NumericEntries(info: PluginInfo): (r: PluginInfo)
    ensures |r| <= |info|
  {
    if |info| == 0 then []
    else NumericEntries(info[..|info| - 1]) + (if IsNumeric(info[|info| - 1].1) then [info[|info| - 1]] else [])
  }

  /** Exactly the numeric entries are kept. */
  lemma {:induction false} NumericEntriesMembers(info: PluginInfo, p: (string, Value))
    ensures p in NumericEntries(info) <==> p in info && IsNumeric(p.1)
    decreases |info|
  {
    if |info| > 0 {
      var init := info[..|info| - 1];
      NumericEntriesMembers(init, p);
      assert info == init + [info[|info| - 1]];
    }
  }

  /** An OTLP AnyValue as the attribute helpers build it. */
  datatype AnyValue = StringValue(stringValue: string) | IntValue(intValue: int)

  /** A KeyValue of an attribute list. */
  datatype Attribute = Attribute(key: string, value: AnyValue)

  /** `string_value_attribute(key, value)`: the value is stringified. */
  function StringValueAttribute(key: string, value: Value): (a: Attribute)
    ensures a.key == key && a.value.StringValue? && a.value.stringValue == ToS(value)
  {
    Attribute(key, StringValue(ToS(value)))
  }

  /** `int_value_attribute(key, value)`: the value is kept as it is. */
  function IntValueAttribute(key: string, value: int): (a: Attribute)
    ensures a.key == key && a.value == IntValue(value)
  {
    Attribute(key, IntValue(value))
  }

  /** `plugin_name(category, type)`: "in" and "out" abbreviate the two main categories. */
  function PluginName(category: Value, pluginType: Value): (name: string)
    ensures category == Str("input") ==> name == "in_" + ToS(pluginType)
    ensures category == Str("output") ==> name == "out_" + ToS(pluginType)
    ensures category != Str("input") && category != Str("output") ==> name == ToS(category) + "_" + ToS(pluginType)
  {
    var prefix := if category == Str("input") then "in" else if category == Str("output") then "out" else ToS(category);
    prefix + "_" + ToS(pluginType)
  }

  /** The four attributes every metric of one plugin carries, all stringified. */
  function PluginAttributes(info: PluginInfo): (attrs: seq<Attribute>)
    ensures |attrs| == 4
    ensures forall k :: 0 <= k < |attrs| ==> attrs[k].value.StringValue?
  {
    [ StringValueAttribute("plugin_id", Lookup(info, "plugin_id")),
      StringValueAttribute("plugin", Str(PluginName(Lookup(info, "plugin_category"), Lookup(info, "type")))),
      StringValueAttribute("plugin_category", Lookup(info, "plugin_category")),
      StringValueAttribute("plugin_type", Lookup(info, "type")) ]
  }

  /** The number of a data point: `asDouble` with the value as given, or `asInt`. */
  datatype NumberValue = AsDouble(asDouble: Value) | AsInt(asInt: int)

  datatype DataPoint = DataPoint(startTimeUnixNano: int, timeUnixNano: int, value: NumberValue, attributes: seq<Attribute>)

  /** `gauge`, or `sum` with its temporality (2 is CUMULATIVE) and monotonicity. */
  datatype MetricData =
    | Gauge(dataPoints: seq<DataPoint>)
    | Sum(aggregationTemporality: int, isMonotonic: bool, dataPoints: seq<DataPoint>)

  datatype Metric = Metric(name: string, unit: string, data: MetricData)

  datatype Scope = Scope(name: string, version: string)
  datatype ScopeMetrics = ScopeMetrics(scope: Scope, metrics: seq<Metric>)
  datatype Resource = Resource(attributes: seq<Attribute>)
  datatype ResourceMetrics = ResourceMetrics(resource: Resource, scopeMetrics: seq<ScopeMetrics>)
  datatype MetricsData = MetricsData(resourceMetrics: seq<ResourceMetrics>)

  /** What the process and the runtime report: versions, pid, resident memory, user CPU time. */
  datatype Host = Host(fluentVersion: string, rubyVersion: string, pluginVersion: string,
                       pid: int, memoryBytes: int, cpuUserTime: string)

  const ScopeName := "fluent-plugin-opentelemetry"

  class Metrics {
    const startTimeUnixNano: int
    const metricNamePrefix: string
    const hostname: string

    /** `Metrics.new(metric_name_prefix:)`: the start time and host name are read once, here. */
    constructor (metricNamePrefix: string, now: Time, hostname: string)
      ensures startTimeUnixNano == ToNanoSec(now)
      ensures this.metricNamePrefix == metricNamePrefix && this.hostname == hostname
    {
      startTimeUnixNano := ToNanoSec(now);
      this.metricNamePrefix := metricNamePrefix;
      this.hostname := hostname;
    }

    /** The gauge one numeric entry yields. */
    function EntryMetric(key: string, value: Value, attributes: seq<Attribute>, time: int): Metric {
      Metric(metricNamePrefix + key, "1",
             Gauge([DataPoint(startTimeUnixNano, time, AsDouble(value), attributes)]))
    }

    /** The gauges of the first `n` entries of one info map. */
    function EntryMetrics(info: PluginInfo, n: nat, attributes: seq<Attribute>, time: int): seq<Metric>
      requires n <= |info|
    {
      if n == 0 then []
      else
        EntryMetrics(info, n - 1, attributes, time)
          + (if IsNumeric(info[n - 1].1) then [EntryMetric(info[n - 1].0, info[n - 1].1, attributes, time)] else [])
    }

    /**
     * The gauges of the first `n` info maps, each map's gauges carrying the
     * attributes `attributesOf` gives it (`PluginAttributes` in `metrics`).
     */
    function PluginMetrics(infos: seq<PluginInfo>, n: nat, attributesOf: PluginInfo -> seq<Attribute>, time: int): seq<Metric>
      requires n <= |infos|
    {
      if n == 0 then []
      else PluginMetrics(infos, n - 1, attributesOf, time)
             + EntryMetrics(infos[n - 1], |infos[n - 1]|, attributesOf(infos[n - 1]), time)
    }

    /** `process_metrics(time_nano_sec)`: resident memory, then user CPU time. */
    function ProcessMetrics(time: int, host: Host): seq<Metric>
    {
      [ Metric(metricNamePrefix + "process_memory_usage", "By",
          Gauge([DataPoint(startTimeUnixNano, time, AsInt(host.memoryBytes),
                           [StringValueAttribute("type", Str("resident")), IntValueAttribute("process.pid", host.pid)])])),
        Metric(metricNamePrefix + "process_cpu_time", "s",
          Sum(2, true, [DataPoint(startTimeUnixNano, time, AsDouble(FloatNum(host.cpuUserTime)),
                                  [StringValueAttribute("state", Str("user")), IntValueAttribute("process.pid", host.pid)])])) ]
    }

    /** What `metrics` returns when the clock reads `time` (nanoseconds). */
    function AllMetrics(infos: seq<PluginInfo>, time: int, host: Host): seq<Metric> {
      PluginMetrics(infos, |infos|, PluginAttributes, time) + ProcessMetrics(time, host)
    }

    /**
     * The inner `record.each` of `metrics`: each numeric entry of one info
     * map, in order, pushes its gauge onto `metrics`.
     */
    method AppendEntryMetrics(metrics: seq<Metric>, record: PluginInfo, attributes: seq<Attribute>, time: int)
      returns (out: seq<Metric>)
      ensures out == metrics + EntryMetrics(record, |record|, attributes, time)
    {
      out := metrics;
      var j := 0;
      while j < |record|
        invariant 0 <= j <= |record|
        invariant out == metrics + EntryMetrics(record, j, attributes, time)
      {
        var key := record[j].0;
        var value := record[j].1;
        if IsNumeric(value) {
          out := out + [EntryMetric(key, value, attributes, time)];
        }
        j := j + 1;
      }
    }

    /** One turn of the outer loop of `metrics`: the attributes of the `i`-th map, then its gauges. */
    method AppendPluginMetrics(metrics: seq<Metric>, infos: seq<PluginInfo>, i: nat, time: int)
      returns (out: seq<Metric>)
      requires i < |infos| && metrics == PluginMetrics(infos, i, PluginAttributes, time)
      ensures out == PluginMetrics(infos, i + 1, PluginAttributes, time)
    {
      var record := infos[i];
      var attributes := PluginAttributes(record);
      out := AppendEntryMetrics(metrics, record, attributes, time);
    }

    /** The outer `infos.each` of `metrics`: for each info map, its gauges in turn. */
    method PluginMetricList(infos: seq<PluginInfo>, time: int) returns (metrics: seq<Metric>)
      ensures metrics == PluginMetrics(infos, |infos|, PluginAttributes, time)
    {
      metrics := [];
      var i := 0;
      while i < |infos|
        invariant 0 <= i <= |infos|
        invariant metrics == PluginMetrics(infos, i, PluginAttributes, time)
      {
        metrics := AppendPluginMetrics(metrics, infos, i, time);
        i := i + 1;
      }
    }

    /**
     * `metrics`: the clock is read once; for each info map, each numeric
     * entry appends one gauge; the two process metrics come last.
     */
    method MetricList(infos: seq<PluginInfo>, now: Time, host: Host) returns (metrics: seq<Metric>)
      ensures metrics == AllMetrics(infos, ToNanoSec(now), host)
    {
      var timeNanoSec := ToNanoSec(now);
      metrics := PluginMetricList(infos, timeNanoSec);
      metrics := metrics + ProcessMetrics(timeNanoSec, host);
    }

    /** The resource attributes of `metrics_data`. */
    function ResourceAttributes(host: Host): (attrs: seq<Attribute>)
      ensures |attrs| == 6
      ensures attrs[0] == StringValueAttribute("service.name", Str("fluentd"))
      ensures attrs[2] == StringValueAttribute("host.name", Str(hostname))
      ensures attrs[5] == IntValueAttribute("process.pid", host.pid)
    {
      [ StringValueAttribute("service.name", Str("fluentd")),
        StringValueAttribute("service.version", Str(host.fluentVersion)),
        StringValueAttribute("host.name", Str(hostname)),
        StringValueAttribute("process.runtime.name", Str("ruby")),
        StringValueAttribute("process.runtime.version", Str(host.rubyVersion)),
        IntValueAttribute("process.pid", host.pid) ]
    }

    /** `metrics_data` and `scope_metrics` around a list of metrics. */
    function MetricsDataOf(metrics: seq<Metric>, host: Host): (d: MetricsData)
      ensures |d.resourceMetrics| == 1
      ensures d.resourceMetrics[0].resource.attributes == ResourceAttributes(host)
      ensures |d.resourceMetrics[0].scopeMetrics| == 1
      ensures d.resourceMetrics[0].scopeMetrics[0].scope == Scope(ScopeName, host.pluginVersion)
      ensures d.resourceMetrics[0].scopeMetrics[0].metrics == metrics
    {
      MetricsData([ResourceMetrics(Resource(ResourceAttributes(host)),
                                   [ScopeMetrics(Scope(ScopeName, host.pluginVersion), metrics)])])
    }

    /** `values`: the request the timer reports. */
    method Values(infos: seq<PluginInfo>, now: Time, host: Host) returns (d: MetricsData)
      ensures d == MetricsDataOf(AllMetrics(infos, ToNanoSec(now), host), host)
    {
      var metrics := MetricList(infos, now, host);
      d := MetricsDataOf(metrics, host);
    }

    /** One gauge per numeric entry of one info map, in order, all with that plugin's attributes. */
    lemma {:induction false} EntryMetricsAreNumericEntries(info: PluginInfo, n: nat, attributes: seq<Attribute>, time: int)
      requires n <= |info|
      ensures
        var ms := EntryMetrics(info, n, attributes, time);
        var es := NumericEntries(info[..n]);
        && |ms| == |es|
        && forall k :: 0 <= k < |ms| ==> ms[k] == EntryMetric(es[k].0, es[k].1, attributes, time)
      decreases n
    {
      if n > 0 {
        EntryMetricsAreNumericEntries(info, n - 1, attributes, time);
        assert info[..n][..n - 1] == info[..n - 1];
      }
    }

    /** A map without numeric entries contributes no metric. */
    lemma NoNumericNoMetric(info: PluginInfo, attributes: seq<Attribute>, time: int)
      requires forall k :: 0 <= k < |info| ==> !IsNumeric(info[k].1)
      ensures EntryMetrics(info, |info|, attributes, time) == []
    {
      EntryMetricsAreNumericEntries(info, |info|, attributes, time);
      assert info[..|info|] == info;
      if |NumericEntries(info)| > 0 {
        var p := NumericEntries(info)[0];
        NumericEntriesMembers(info, p);
      }
    }

    /** A plugin metric's shape: a gauge of unit "1" named prefix + key, with one stamped data point. */
    predicate PluginGauge(m: Metric, time: int) {
      && m.unit == "1" && m.data.Gauge? && |m.data.dataPoints| == 1
      && StartsWith(m.name, metricNamePrefix)
      && m.data.dataPoints[0].startTimeUnixNano == startTimeUnixNano
      && m.data.dataPoints[0].timeUnixNano == time
    }

    /** Every gauge of one info map has the plugin-metric shape. */
    lemma {:induction false} EntryMetricsAreGauges(info: PluginInfo, n: nat, attributes: seq<Attribute>, time: int)
      requires n <= |info|
      ensures forall k :: 0 <= k < |EntryMetrics(info, n, attributes, time)| ==>
        PluginGauge(EntryMetrics(info, n, attributes, time)[k], time)
      decreases n
    {
      if n > 0 {
        EntryMetricsAreGauges(info, n - 1, attributes, time);
        var m := EntryMetric(info[n - 1].0, info[n - 1].1, attributes, time);
        assert m.name[..|metricNamePrefix|] == metricNamePrefix;
        assert PluginGauge(m, time);
      }
    }

    /** Every plugin metric is a gauge of unit "1" named prefix + key, with one data point. */
    lemma {:induction false} PluginMetricsAreGauges(infos: seq<PluginInfo>, n: nat,
                                                    attributesOf: PluginInfo -> seq<Attribute>, time: int)
      requires n <= |infos|
      ensures forall k :: 0 <= k < |PluginMetrics(infos, n, attributesOf, time)| ==>
        PluginGauge(PluginMetrics(infos, n, attributesOf, time)[k], time)
      decreases n
    {
      if n > 0 {
        PluginMetricsAreGauges(infos, n - 1, attributesOf, time);
        var info := infos[n - 1];
        EntryMetricsAreGauges(info, |info|, attributesOf(info), time);
      }
    }

    /** One gauge per numeric entry of the map's first `n` entries. */
    lemma {:induction false} EntryMetricsCount(info: PluginInfo, n: nat, attributes: seq<Attribute>, time: int)
      requires n <= |info|
      ensures |EntryMetrics(info, n, attributes, time)| == |NumericEntries(info[..n])|
      decreases n
    {
      if n > 0 {
        EntryMetricsCount(info, n - 1, attributes, time);
        assert info[..n][..n - 1] == info[..n - 1];
      }
    }

    /** The two process metrics come after every plugin metric, memory first. */
    lemma ProcessMetricsLast(infos: seq<PluginInfo>, time: int, host: Host)
      ensures
        var ms := AllMetrics(infos, time, host);
        && |ms| >= 2
        && ms[|ms| - 2].name == metricNamePrefix + "process_memory_usage" && ms[|ms| - 2].unit == "By"
        && ms[|ms| - 2].data.Gauge?
        && ms[|ms| - 1].name == metricNamePrefix + "process_cpu_time" && ms[|ms| - 1].unit == "s"
        && ms[|ms| - 1].data == Sum(2, true, ms[|ms| - 1].data.dataPoints)
        && ms[..|ms| - 2] == PluginMetrics(infos, |infos|, PluginAttributes, time)
    {
      var ms := AllMetrics(infos, time, host);
      assert ms[..|ms| - 2] == PluginMetrics(infos, |infos|, PluginAttributes, time);
    }

    /** The metric's name carries the prefix and its points carry the start time and `time`. */
    predicate Stamped(m: Metric, time: int) {
      && StartsWith(m.name, metricNamePrefix)
      && forall p :: p in m.data.dataPoints ==> p.startTimeUnixNano == startTimeUnixNano && p.timeUnixNano == time
    }

    /** Both process metrics are stamped like the plugin metrics. */
    lemma ProcessMetricsStamped(time: int, host: Host)
      ensures forall k :: 0 <= k < |ProcessMetrics(time, host)| ==> Stamped(ProcessMetrics(time, host)[k], time)
    {
      var ms := ProcessMetrics(time, host);
      assert Stamped(ms[0], time) by {
        assert ms[0].name == metricNamePrefix + "process_memory_usage";
      }
      assert Stamped(ms[1], time) by {
        assert ms[1].name == metricNamePrefix + "process_cpu_time";
      }
    }

    /**
     * Every metric name starts with the configured prefix, and every data
     * point shares the start time fixed at construction and the time read
     * once by `metrics`.
     */
    lemma NamesAndTimes(infos: seq<PluginInfo>, time: int, host: Host)
      ensures forall k :: 0 <= k < |AllMetrics(infos, time, host)| ==> Stamped(AllMetrics(infos, time, host)[k], time)
    {
      PluginMetricsAreGauges(infos, |infos|, PluginAttributes, time);
      ProcessMetricsStamped(time, host);
      var plugin := PluginMetrics(infos, |infos|, PluginAttributes, time);
      var process := ProcessMetrics(time, host);
      var all := AllMetrics(infos, time, host);
      forall k | 0 <= k < |all|
        ensures Stamped(all[k], time)
      {
        if k < |plugin| {
          assert all[k] == plugin[k];
          assert forall p :: p in plugin[k].data.dataPoints ==> p == plugin[k].data.dataPoints[0];
        } else {
          assert all[k] == process[k - |plugin|];
        }
      }
    }

    /** One gauge per numeric entry of the whole map. */
    lemma InfoMetricCount(info: PluginInfo, attributes: seq<Attribute>, time: int)
      ensures |EntryMetrics(info, |info|, attributes, time)| == |NumericEntries(info)|
    {
      EntryMetricsCount(info, |info|, attributes, time);
      assert info[..|info|] == info;
    }

    /**
     * The metric count: one per numeric entry of every map, plus two. Each
     * map's metrics follow the previous maps' metrics.
     */
    lemma {:induction false} MetricCount(infos: seq<PluginInfo>, n: nat, attributesOf: PluginInfo -> seq<Attribute>, time: int)
      requires n <= |infos|
      ensures |PluginMetrics(infos, n, attributesOf, time)| == NumericCount(infos, n)
      decreases n
    {
      if n > 0 {
        MetricCount(infos, n - 1, attributesOf, time);
        var info := infos[n - 1];
        InfoMetricCount(info, attributesOf(info), time);
      }
    }

    /** The timer's emit: `{ "type" => RECORD_TYPE_METRICS, "message" => record }` under the tag. */
    method Emit(router: Router, tag: string, render: MetricsData -> string,
                infos: seq<PluginInfo>, now: Time, host: Host)
      modifies router
      ensures router.events == old(router.events)
        + [Event(tag, EventRecord(StringKeys, RecordTypeMetrics,
                                  render(MetricsDataOf(AllMetrics(infos, ToNanoSec(now), host), host))))]
    {
      var d := Values(infos, now, host);
      router.Emit(Event(tag, EventRecord(StringKeys, RecordTypeMetrics, render(d))));
    }
  }

  /** The numeric entries of the first `n` info maps. */
  function NumericCount(infos: seq<PluginInfo>, n: nat): nat
    requires n <= |infos|
  {
    if n == 0 then 0 else NumericCount(infos, n - 1) + |NumericEntries(infos[n - 1])|
  }
}
