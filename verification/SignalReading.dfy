/** The batch loop of the signal reading worker (signal_reading_worker.py, lines 184-392). */
module SignalReading {
  import opened Prelude
  import opened TtlLog
  import opened Thresholds
  import opened ThresholdCaching
  import Alerts

  datatype Reading = Reading(
    serial: string, collectedAt: Time,
    rxPower: Option<real>, txPower: Option<real>, temperature: Option<real>,
    voltage: Option<real>, biasCurrent: Option<real>, distance: Option<real>, status: Option<string>)

  datatype Row = Row(onu: Id, reading: Reading, alertCritical: bool)

  // Order in which _reading_metric_values lists the metrics.
  const METRICS: seq<string> :=
    ["rx_power_dbm", "tx_power_dbm", "temperature", "voltage", "bias_current", "distance_m"]

  function MetricValue(r: Reading, k: nat): Option<real>
    requires k < |METRICS|
  {
    [r.rxPower, r.txPower, r.temperature, r.voltage, r.biasCurrent, r.distance][k]
  }

  function CheckViolation(value: real, min: Option<real>, max: Option<real>): bool {
    (min.Some? && value < min.value) || (max.Some? && value > max.value)
  }

  /** One measured value outside the policy in force. */
  datatype Alarm = Alarm(metric: string, value: real, policy: Effective)

  function AlarmAt(r: Reading, thresholds: ThresholdMap, k: nat): Option<Alarm>
    requires k < |METRICS|
  {
    var metric := METRICS[k];
    if MetricValue(r, k).None? || metric !in thresholds || thresholds[metric].None? then None
    else
      var value := MetricValue(r, k).value;
      var policy := thresholds[metric].value;
      if CheckViolation(value, policy.min, policy.max) then Some(Alarm(metric, value, policy)) else None
  }

  /** The alarms among the first k metrics, in listing order. */
  function AlarmsUpTo(r: Reading, thresholds: ThresholdMap, k: nat): seq<Alarm>
    requires k <= |METRICS|
  {
    if k == 0 then []
    else
      var alarm := AlarmAt(r, thresholds, k - 1);
      AlarmsUpTo(r, thresholds, k - 1) + (if alarm.Some? then [alarm.value] else [])
  }

  function Alarms(r: Reading, thresholds: ThresholdMap): seq<Alarm> {
    AlarmsUpTo(r, thresholds, |METRICS|)
  }

  ghost predicate AnyCritical(alarms: seq<Alarm>) {
    exists a :: a in alarms && a.policy.severity.Critical?
  }

  lemma {:induction false} AlarmsAreTheAlarms(r: Reading, thresholds: ThresholdMap, k: nat)
    requires k <= |METRICS|
    ensures forall a :: a in AlarmsUpTo(r, thresholds, k) <==>
                        exists j :: 0 <= j < k && AlarmAt(r, thresholds, j) == Some(a)
  {
    if k > 0 {
      AlarmsAreTheAlarms(r, thresholds, k - 1);
    }
  }

  /** The reading carries this value for the metric. */
  ghost predicate Measures(r: Reading, metric: string, v: real) {
    || (metric == "rx_power_dbm" && r.rxPower == Some(v)) || (metric == "tx_power_dbm" && r.txPower == Some(v))
    || (metric == "temperature" && r.temperature == Some(v)) || (metric == "voltage" && r.voltage == Some(v))
    || (metric == "bias_current" && r.biasCurrent == Some(v)) || (metric == "distance_m" && r.distance == Some(v))
  }

  /** The policy governs the metric in its listing, and the reading's value lies below its minimum or above its maximum. */
  ghost predicate Violates(r: Reading, policies: seq<Policy>, metric: string, v: real, i: nat) {
    && Measures(r, metric, v) && Governs(policies, metric, i)
    && ((policies[i].min.Some? && v < policies[i].min.value) || (policies[i].max.Some? && v > policies[i].max.value))
  }

  lemma MeasuresIff(r: Reading, metric: string, v: real)
    ensures Measures(r, metric, v) <==> exists k :: 0 <= k < |METRICS| && METRICS[k] == metric && MetricValue(r, k) == Some(v)
  {
    assert METRICS[0] == "rx_power_dbm" && METRICS[1] == "tx_power_dbm" && METRICS[2] == "temperature";
    assert METRICS[3] == "voltage" && METRICS[4] == "bias_current" && METRICS[5] == "distance_m";
    assert MetricValue(r, 0) == r.rxPower && MetricValue(r, 1) == r.txPower && MetricValue(r, 2) == r.temperature;
    assert MetricValue(r, 3) == r.voltage && MetricValue(r, 4) == r.biasCurrent && MetricValue(r, 5) == r.distance;
  }

  lemma MetricsAreSupported(k: nat)
    requires k < |METRICS|
    ensures METRICS[k] in SUPPORTED_METRICS
  {
  }

  /** End to end: a reading alarms for a metric exactly when its value is outside the limits of the policy that governs it. */
  lemma AlarmsAreViolations(r: Reading, policies: seq<Policy>, a: Alarm)
    ensures a in Alarms(r, Resolve(policies)) <==>
            exists i: nat :: Violates(r, policies, a.metric, a.value, i) && TakenFrom(a.policy, policies[i])
  {
    ResolveMeetsHierarchy(policies);
    AlarmsAreTheAlarms(r, Resolve(policies), |METRICS|);
    if a in Alarms(r, Resolve(policies)) {
      var k :| 0 <= k < |METRICS| && AlarmAt(r, Resolve(policies), k) == Some(a);
      MetricsAreSupported(k);
      MeasuresIff(r, a.metric, a.value);
      var i: nat :| Governs(policies, a.metric, i) && TakenFrom(a.policy, policies[i]);
      assert Violates(r, policies, a.metric, a.value, i);
    }
    if i: nat :| Violates(r, policies, a.metric, a.value, i) && TakenFrom(a.policy, policies[i]) {
      MeasuresIff(r, a.metric, a.value);
      var k :| 0 <= k < |METRICS| && METRICS[k] == a.metric && MetricValue(r, k) == Some(a.value);
      MetricsAreSupported(k);
      EffectiveIsUnique(policies, a.metric, Resolve(policies)[a.metric], Some(a.policy));
      assert AlarmAt(r, Resolve(policies), k) == Some(a);
    }
  }

  /** The separate pass that sets the flag; it agrees with the alert loop it runs ahead of. */
  method HasCriticalViolation(r: Reading, thresholds: ThresholdMap) returns (critical: bool)
    ensures critical <==> AnyCritical(Alarms(r, thresholds))
  {
    AlarmsAreTheAlarms(r, thresholds, |METRICS|);
    for k := 0 to |METRICS|
      invariant forall j | 0 <= j < k ::
        AlarmAt(r, thresholds, j).Some? ==> !AlarmAt(r, thresholds, j).value.policy.severity.Critical?
    {
      var value := MetricValue(r, k);
      if value.None? || METRICS[k] !in thresholds || thresholds[METRICS[k]].None? {
        continue;
      }
      var policy := thresholds[METRICS[k]].value;
      if !policy.severity.Critical? {
        continue;
      }
      if CheckViolation(value.value, policy.min, policy.max) {
        assert AlarmAt(r, thresholds, k) == Some(Alarm(METRICS[k], value.value, policy));
        return true;
      }
    }
    return false;
  }

  // ---------- Thresholds for one reading ----------

  /** Every value of the dictionary was a hit at its instant. */
  ghost predicate AllHits(log: ThresholdLog, ttl: Time, onu: Id, d: ThresholdMap, times: map<string, Time>) {
    d.Keys == times.Keys && forall m | m in d :: LookupIn(log, ttl, (onu, m), times[m]) == Hit(d[m])
  }

  lemma HitsAdd(log: ThresholdLog, ttl: Time, onu: Id, d: ThresholdMap, times: map<string, Time>, metric: string,
                value: Option<Effective>, at: Time)
    requires AllHits(log, ttl, onu, d, times) && LookupIn(log, ttl, (onu, metric), at) == Hit(value)
    ensures AllHits(log, ttl, onu, d[metric := value], times[metric := at])
  {
  }

  /** One lookup, at the next reading of the clock. */
  method Ask(cache: ThresholdCache, clock: Clock, onu: Id, metric: string, ghost from: Time, ghost base: seq<Time>, ghost ts: seq<Time>)
    returns (value: Lookup<Option<Effective>>, ghost ts': seq<Time>)
    requires cache.Valid() && cache.seen <= clock.now
    requires clock.trace == base + ts && Rising(from, ts, clock.now)
    modifies cache, clock
    ensures cache.Valid() && cache.seen <= clock.now && cache.log == old(cache.log)
    ensures value == LookupIn(cache.log, cache.ttl, (onu, metric), clock.now)
    ensures clock.trace == base + ts' && Rising(from, ts', clock.now) && ts' == ts + [clock.now] && old(clock.now) <= clock.now
  {
    var now := clock.Read();
    RisingSnoc(from, ts, old(clock.now), now);
    ts' := ts + [now];
    value := cache.Get(onu, metric, now);
  }

  /** One hit: the metric, its value and the instant. */
  datatype Probe = Probe(metric: string, value: Option<Effective>, at: Time)

  ghost predicate AllProbed(log: ThresholdLog, ttl: Time, onu: Id, probes: seq<Probe>) {
    probes != [] ==>
      var n := |probes| - 1;
      AllProbed(log, ttl, onu, probes[..n]) && LookupIn(log, ttl, (onu, probes[n].metric), probes[n].at) == Hit(probes[n].value)
  }

  function Values(probes: seq<Probe>): ThresholdMap {
    if probes == [] then map[] else Values(probes[..|probes| - 1])[probes[|probes| - 1].metric := probes[|probes| - 1].value]
  }

  ghost function Instants(probes: seq<Probe>): map<string, Time> {
    if probes == [] then map[] else Instants(probes[..|probes| - 1])[probes[|probes| - 1].metric := probes[|probes| - 1].at]
  }

  lemma ProbeSnoc(log: ThresholdLog, ttl: Time, onu: Id, probes: seq<Probe>, p: Probe)
    requires AllProbed(log, ttl, onu, probes) && LookupIn(log, ttl, (onu, p.metric), p.at) == Hit(p.value)
    ensures AllProbed(log, ttl, onu, probes + [p])
    ensures Values(probes + [p]) == Values(probes)[p.metric := p.value]
  {
    assert (probes + [p])[..|probes|] == probes;
  }

  lemma {:induction false} ProbesAreHits(log: ThresholdLog, ttl: Time, onu: Id, probes: seq<Probe>)
    requires AllProbed(log, ttl, onu, probes)
    ensures AllHits(log, ttl, onu, Values(probes), Instants(probes))
  {
    if probes != [] {
      var n := |probes| - 1;
      ProbesAreHits(log, ttl, onu, probes[..n]);
      HitsAdd(log, ttl, onu, Values(probes[..n]), Instants(probes[..n]), probes[n].metric, probes[n].value, probes[n].at);
    }
  }

  /** What has been read while the metrics of todo are left; ts are the instants, between from and to. */
  ghost predicate ReadSoFar(log: ThresholdLog, ttl: Time, onu: Id, metrics: set<string>, todo: set<string>, d: ThresholdMap,
                            probes: seq<Probe>, ts: seq<Time>, from: Time, to: Time) {
    && todo <= metrics && d.Keys == metrics - todo && d == Values(probes) && AllProbed(log, ttl, onu, probes)
    && |ts| == |probes| && |ts| + |todo| == |metrics| && Rising(from, ts, to)
    && (ts != [] ==> ts[|ts| - 1] == probes[|ts| - 1].at == to)
  }

  lemma ReadOneMore(log: ThresholdLog, ttl: Time, onu: Id, metrics: set<string>, todo: set<string>, d: ThresholdMap,
                    probes: seq<Probe>, ts: seq<Time>, from: Time, to: Time, p: Probe)
    requires ReadSoFar(log, ttl, onu, metrics, todo, d, probes, ts, from, to) && p.metric in todo && to <= p.at
    requires LookupIn(log, ttl, (onu, p.metric), p.at) == Hit(p.value)
    ensures ReadSoFar(log, ttl, onu, metrics, todo - {p.metric}, d[p.metric := p.value], probes + [p], ts + [p.at], from, p.at)
  {
    ProbeSnoc(log, ttl, onu, probes, p);
    RisingSnoc(from, ts, to, p.at);
    assert |todo - {p.metric}| == |todo| - 1;
  }

  /** Reads metrics until the first miss; each answer is the cache's at its own instant, ts are the instants. */
  method ReadCached(cache: ThresholdCache, clock: Clock, onu: Id, metrics: set<string>)
    returns (complete: bool, d: ThresholdMap, ghost probes: seq<Probe>, ghost ts: seq<Time>)
    requires cache.Valid() && cache.seen <= clock.now && metrics != {}
    modifies cache, clock
    ensures cache.Valid() && cache.seen <= clock.now && cache.log == old(cache.log)
    ensures d == Values(probes) && AllProbed(cache.log, cache.ttl, onu, probes)
    ensures complete ==> d.Keys == metrics && probes != [] && probes[|probes| - 1].at == clock.now
    ensures clock.trace == old(clock.trace) + ts && Rising(old(clock.now), ts, clock.now)
    ensures 1 <= |ts| <= |metrics| && ts[|ts| - 1] == clock.now && (complete ==> |ts| == |metrics|)
  {
    d := map[];
    probes, ts := [], [];
    ghost var from, base, log := clock.now, clock.trace, cache.log;
    var todo := metrics;
    while todo != {}
      invariant cache.Valid() && cache.seen <= clock.now && cache.log == log && clock.trace == base + ts
      invariant ReadSoFar(log, cache.ttl, onu, metrics, todo, d, probes, ts, from, clock.now)
    {
      var metric :| metric in todo;
      ghost var before, earlier := clock.now, ts;
      ReadSome(log, cache.ttl, onu, metrics, todo, d, probes, ts, from, before);
      var value;
      value, ts := Ask(cache, clock, onu, metric, from, base, ts);
      if value.Miss? {
        return false, d, probes, ts;
      }
      ReadOneMore(log, cache.ttl, onu, metrics, todo, d, probes, earlier, from, before, Probe(metric, value.value, clock.now));
      probes := probes + [Probe(metric, value.value, clock.now)];
      d := d[metric := value.value];
      todo := todo - {metric};
    }
    ReadSome(log, cache.ttl, onu, metrics, todo, d, probes, ts, from, clock.now);
    complete := true;
  }

  lemma ReadSome(log: ThresholdLog, ttl: Time, onu: Id, metrics: set<string>, todo: set<string>, d: ThresholdMap,
                 probes: seq<Probe>, ts: seq<Time>, from: Time, to: Time)
    requires ReadSoFar(log, ttl, onu, metrics, todo, d, probes, ts, from, to) && metrics != {}
    ensures d == Values(probes) && AllProbed(log, ttl, onu, probes) && Rising(from, ts, to)
    ensures todo != {} ==> |ts| < |metrics|
    ensures todo == {} ==> d.Keys == metrics && |ts| == |probes| == |metrics| > 0 && ts[|ts| - 1] == probes[|ts| - 1].at == to
  {
    if todo == {} {
      assert |todo| == 0;
    } else {
      assert |todo| > 0;
    }
  }

  /** Clock readings of a full set of hits; a load takes one for each metric asked before the miss, the miss, and the store. */
  const HIT_READINGS := 6

  /** Cache-aside read: every metric from the cache, or one fresh policy listing cached whole. */
  method ResolveThresholdsWithCache(cache: ThresholdCache, clock: Clock, onu: Id, policies: seq<Policy>,
                                    ghost loads: seq<Load>, ghost reading: nat)
    returns (d: ThresholdMap, ghost source: Load, ghost loads': seq<Load>, ghost ts: seq<Time>)
    requires cache.Valid() && cache.seen <= clock.now && Loaded(cache.log, loads)
    modifies cache, clock
    ensures cache.Valid() && cache.seen <= clock.now && Loaded(cache.log, loads')
    ensures d == Resolve(source.policies) && source.onu == onu && clock.now < source.at + cache.ttl
    ensures || (loads' == loads && source in loads && |ts| == HIT_READINGS)
            || (loads' == loads + [source] && source == Load(onu, policies, clock.now, reading) && 2 <= |ts| <= HIT_READINGS + 1)
    ensures clock.trace == old(clock.trace) + ts && Rising(old(clock.now), ts, clock.now) && ts[|ts| - 1] == clock.now
  {
    assert "voltage" in SUPPORTED_METRICS;
    MetricsAreSix();
    var complete, cached;
    ghost var probes;
    complete, cached, probes, ts := ReadCached(cache, clock, onu, SUPPORTED_METRICS);
    if complete {
      ProbesAreHits(cache.log, cache.ttl, onu, probes);
      HitsFormOneSnapshot(cache.log, loads, cache.ttl, onu, Instants(probes), cached, probes[|probes| - 1].metric);
      ghost var i :| 0 <= i < |loads| && loads[i].onu == onu && clock.now < loads[i].at + cache.ttl && cached == Resolve(loads[i].policies);
      return cached, loads[i], loads, ts;
    }
    d, source, ts := LoadThresholds(cache, clock, onu, policies, loads, reading, old(clock.now), old(clock.trace), ts);
    loads' := loads + [source];
  }

  /** The policy query, its resolution, and the store. */
  method LoadThresholds(cache: ThresholdCache, clock: Clock, onu: Id, policies: seq<Policy>, ghost loads: seq<Load>, ghost reading: nat,
                        ghost from: Time, ghost base: seq<Time>, ghost ts: seq<Time>)
    returns (d: ThresholdMap, ghost source: Load, ghost ts': seq<Time>)
    requires cache.Valid() && cache.seen <= clock.now && Loaded(cache.log, loads)
    requires clock.trace == base + ts && Rising(from, ts, clock.now)
    modifies cache, clock
    ensures cache.Valid() && cache.seen <= clock.now && Loaded(cache.log, loads + [source])
    ensures d == Resolve(policies) && source == Load(onu, policies, clock.now, reading)
    ensures clock.trace == base + ts' && Rising(from, ts', clock.now) && ts' == ts + [clock.now]
  {
    d := ResolvePoliciesForOnu(policies);
    var now := clock.Read();
    RisingSnoc(from, ts, old(clock.now), now);
    ts' := ts + [now];
    cache.PutBulk(onu, d, now);
    source := Load(onu, policies, now, reading);
  }

  lemma RisingSnoc(from: Time, ts: seq<Time>, before: Time, now: Time)
    requires Rising(from, ts, before) && before <= now
    ensures Rising(from, ts + [now], now)
  {
    RisingLater(from, ts, before, now);
    assert (ts + [now])[..|ts|] == ts;
  }

  lemma MetricsAreSix()
    ensures |SUPPORTED_METRICS| == HIT_READINGS
  {
    assert SUPPORTED_METRICS == {"rx_power_dbm", "tx_power_dbm", "temperature"} + {"voltage", "bias_current", "distance_m"};
    assert "rx_power_dbm"[0] == 'r' && "tx_power_dbm"[0] == 't' && "tx_power_dbm"[1] == 'x' && "temperature"[1] == 'e';
    assert "voltage"[0] == 'v' && "bias_current"[0] == 'b' && "distance_m"[0] == 'd';
  }

  // ---------- The batch ----------

  type SerialMap = map<string, (Id, Id)>

  /**
   * How one reading was handled: discarded, or judged by the thresholds of one load. The instant of the judgement is the
   * last of the clock readings that it took.
   */
  datatype Judged =
    | Unknown(reading: Reading)
    | Known(reading: Reading, onu: Id, thresholds: ThresholdMap, source: Load, at: Time, readings: nat)

  /** The load was made for an earlier or the same reading of its own ONU, from the listing a query returned then. */
  ghost predicate OwnListing(load: Load, readings: seq<Reading>, serials: SerialMap, listings: seq<seq<Policy>>, upTo: nat) {
    && load.reading < upTo <= |readings| && |readings| == |listings|
    && readings[load.reading].serial in serials
    && load.onu == serials[readings[load.reading].serial].0
    && load.policies == listings[load.reading]
  }

  /**
   * The k-th reading was handled as its serial demands, and if it is known the thresholds used for it are the
   * whole resolution of one listing, read for that reading or for an earlier one of the same ONU less than ttl ago.
   */
  ghost predicate Sound(j: Judged, readings: seq<Reading>, serials: SerialMap, listings: seq<seq<Policy>>, ttl: Time, k: nat)
    requires k < |readings|
  {
    && j.reading == readings[k]
    && (j.Known? <==> readings[k].serial in serials)
    && (j.Known? ==>
          && j.onu == serials[readings[k].serial].0
          && j.source.onu == j.onu
          && OwnListing(j.source, readings, serials, listings, k + 1)
          && j.thresholds == Resolve(j.source.policies)
          && j.at < j.source.at + ttl
          && (if j.source.reading == k then j.source.at == j.at && 2 <= j.readings <= HIT_READINGS + 1 else j.readings == HIT_READINGS))
  }

  /** The load was made for an earlier or the same reading, at the instant of that reading's judgement. */
  ghost predicate MadeBy(load: Load, js: seq<Judged>) {
    && load.reading < |js| && js[load.reading].Known?
    && js[load.reading].source == load && js[load.reading].at == load.at
  }

  /** The instants of the judgements within the clock readings of the batch: each reading's are consecutive, in order. */
  ghost predicate Timed(js: seq<Judged>, ts: seq<Time>) {
    if js == [] then ts == []
    else
      var n := |js| - 1;
      match js[n]
      case Unknown(_) => Timed(js[..n], ts)
      case Known(_, _, _, _, at, readings) =>
        1 <= readings <= |ts| && ts[|ts| - 1] == at && Timed(js[..n], ts[..|ts| - readings])
  }

  ghost predicate AllSound(js: seq<Judged>, readings: seq<Reading>, serials: SerialMap, listings: seq<seq<Policy>>, ttl: Time)
    requires |js| <= |readings|
  {
    js != [] ==>
      var k := |js| - 1;
      && AllSound(js[..k], readings, serials, listings, ttl) && Sound(js[k], readings, serials, listings, ttl, k)
      && (js[k].Known? ==> MadeBy(js[k].source, js))
  }

  ghost predicate AllOwn(loads: seq<Load>, js: seq<Judged>, readings: seq<Reading>, serials: SerialMap, listings: seq<seq<Policy>>) {
    forall load | load in loads :: OwnListing(load, readings, serials, listings, |js|) && MadeBy(load, js)
  }

  /** The k-th reading, once handled, is sound, and its load joins those made so far. */
  lemma HandledSoundly(js: seq<Judged>, j: Judged, loads: seq<Load>, loads': seq<Load>, readings: seq<Reading>,
                       serials: SerialMap, listings: seq<seq<Policy>>, ttl: Time, k: nat)
    requires k == |js| < |readings| == |listings|
    requires AllSound(js, readings, serials, listings, ttl) && AllOwn(loads, js, readings, serials, listings)
    requires j.reading == readings[k] && (j.Known? <==> readings[k].serial in serials)
    requires j.Unknown? ==> loads' == loads
    requires j.Known? ==>
      && j.onu == j.source.onu == serials[readings[k].serial].0
      && j.thresholds == Resolve(j.source.policies) && j.at < j.source.at + ttl
      && ((loads' == loads && j.source in loads && j.readings == HIT_READINGS)
          || (loads' == loads + [j.source] && j.source == Load(j.onu, listings[k], j.at, k) && 2 <= j.readings <= HIT_READINGS + 1))
    ensures AllSound(js + [j], readings, serials, listings, ttl)
    ensures AllOwn(loads', js + [j], readings, serials, listings)
  {
    assert (js + [j])[..k] == js;
  }

  lemma {:induction false} SoundAt(js: seq<Judged>, readings: seq<Reading>, serials: SerialMap,
                                   listings: seq<seq<Policy>>, ttl: Time)
    requires |js| <= |readings| && AllSound(js, readings, serials, listings, ttl)
    ensures forall k | 0 <= k < |js| :: Sound(js[k], readings, serials, listings, ttl, k) && (js[k].Known? ==> MadeBy(js[k].source, js))
  {
    if js != [] {
      SoundAt(js[..|js| - 1], readings, serials, listings, ttl);
    }
  }

  /** The instants of judgement lie in the batch's time and never go back. */
  lemma {:induction false} TimedMeaning(js: seq<Judged>, ts: seq<Time>, from: Time, to: Time)
    requires Timed(js, ts) && Rising(from, ts, to)
    ensures forall k | 0 <= k < |js| && js[k].Known? :: from <= js[k].at <= to
    ensures forall i, k | 0 <= i <= k < |js| && js[i].Known? && js[k].Known? :: js[i].at <= js[k].at
  {
    if js != [] {
      var n := |js| - 1;
      if js[n].Unknown? {
        TimedMeaning(js[..n], ts, from, to);
      } else {
        var m := |ts| - js[n].readings;
        RisingMeaning(from, ts, to);
        RisingPrefix(from, ts, m, to);
        TimedMeaning(js[..n], ts[..m], from, js[n].at);
      }
    }
  }

  lemma {:induction false} RisingPrefix(from: Time, ts: seq<Time>, m: nat, to: Time)
    requires m < |ts| && Rising(from, ts, to)
    ensures Rising(from, ts[..m], ts[|ts| - 1])
  {
    var n := |ts| - 1;
    if m < n {
      RisingPrefix(from, ts[..n], m, ts[n]);
      assert ts[..n][..m] == ts[..m];
      RisingMeaning(from, ts, to);
      RisingLater(from, ts[..m], ts[..n][n - 1], ts[n]);
    } else {
      assert ts[..m] == ts[..n];
    }
  }

  /** Row stored for a reading; the flag says that the reading raises a critical alarm. */
  ghost function RowOf(j: Judged): seq<Row> {
    if j.Unknown? then [] else [Row(j.onu, j.reading, AnyCritical(Alarms(j.reading, j.thresholds)))]
  }

  function ToEvents(onu: Id, alarms: seq<Alarm>, at: Time): seq<Alerts.Event> {
    seq(|alarms|, i requires 0 <= i < |alarms| =>
      Alerts.Violated(Alerts.Violation(Alerts.Subject(onu, alarms[i].metric), alarms[i].policy.policyId, alarms[i].value, at)))
  }

  /** Upserts performed for a reading, metric by metric. */
  function UpsertsOf(j: Judged, at: Time): seq<Alerts.Event> {
    if j.Unknown? then [] else ToEvents(j.onu, Alarms(j.reading, j.thresholds), at)
  }

  ghost function AllRows(js: seq<Judged>): seq<Row> {
    if js == [] then [] else AllRows(js[..|js| - 1]) + RowOf(js[|js| - 1])
  }

  function AllUpserts(js: seq<Judged>, at: Time): seq<Alerts.Event> {
    if js == [] then [] else AllUpserts(js[..|js| - 1], at) + UpsertsOf(js[|js| - 1], at)
  }

  function CountUnknown(js: seq<Judged>): nat {
    if js == [] then 0 else CountUnknown(js[..|js| - 1]) + (if js[|js| - 1].Unknown? then 1 else 0)
  }

  lemma Snoc(js: seq<Judged>, j: Judged, at: Time)
    ensures AllRows(js + [j]) == AllRows(js) + RowOf(j)
    ensures AllUpserts(js + [j], at) == AllUpserts(js, at) + UpsertsOf(j, at)
    ensures CountUnknown(js + [j]) == CountUnknown(js) + (if j.Unknown? then 1 else 0)
  {
    assert (js + [j])[..|js|] == js;
  }

  lemma {:induction false} Accounting(js: seq<Judged>)
    ensures |AllRows(js)| + CountUnknown(js) == |js|
    ensures CountUnknown(js) > 0 <==> exists k :: 0 <= k < |js| && js[k].Unknown?
  {
    if js != [] {
      Accounting(js[..|js| - 1]);
    }
  }

  datatype JobStatus = Success | Partial

  function FinalStatus(unknown: nat): JobStatus {
    if unknown > 0 then Partial else Success
  }

  class OpticalStore {
    var readings: seq<Row>
    const alerts: Alerts.AlertTable

    constructor ()
      ensures readings == [] && fresh(alerts) && alerts.Valid() && alerts.events == []
    {
      readings := [];
      alerts := new Alerts.AlertTable();
    }
  }

  /** The alert loop over the metrics of one reading. */
  method RaiseAlerts(table: Alerts.AlertTable, onu: Id, r: Reading, thresholds: ThresholdMap, now: Time) returns (touched: nat)
    requires table.Valid()
    modifies table
    ensures table.Valid() && touched == |Alarms(r, thresholds)|
    ensures table.events == old(table.events) + ToEvents(onu, Alarms(r, thresholds), now)
  {
    touched := 0;
    for k := 0 to |METRICS|
      invariant table.Valid() && touched == |AlarmsUpTo(r, thresholds, k)|
      invariant table.events == old(table.events) + ToEvents(onu, AlarmsUpTo(r, thresholds, k), now)
    {
      var value := MetricValue(r, k);
      if value.None? || METRICS[k] !in thresholds || thresholds[METRICS[k]].None? {
        continue;
      }
      var policy := thresholds[METRICS[k]].value;
      if CheckViolation(value.value, policy.min, policy.max) {
        table.UpsertOpenAlert(
          Alerts.Violation(Alerts.Subject(onu, METRICS[k]), policy.policyId, value.value, now));
        touched := touched + 1;
      }
    }
  }

  /** One reading whose serial is known: thresholds, flag, row, alerts. */
  method PersistReading(store: OpticalStore, cache: ThresholdCache, clock: Clock, onu: Id, reading: Reading,
                        listing: seq<Policy>, txNow: Time, ghost loads: seq<Load>, ghost k: nat)
    returns (touched: nat, ghost j: Judged, ghost loads': seq<Load>, ghost ts: seq<Time>)
    requires store.alerts.Valid() && cache.Valid() && cache.seen <= clock.now && Loaded(cache.log, loads)
    modifies store, store.alerts, cache, clock
    ensures store.alerts.Valid() && cache.Valid() && cache.seen <= clock.now && Loaded(cache.log, loads')
    ensures j.Known? && j.reading == reading && j.onu == j.source.onu == onu
    ensures j.thresholds == Resolve(j.source.policies) && j.at < j.source.at + cache.ttl
    ensures || (loads' == loads && j.source in loads && j.readings == HIT_READINGS)
            || (loads' == loads + [j.source] && j.source == Load(onu, listing, j.at, k) && 2 <= j.readings <= HIT_READINGS + 1)
    ensures clock.trace == old(clock.trace) + ts && Rising(old(clock.now), ts, clock.now)
    ensures |ts| == j.readings && ts[|ts| - 1] == j.at == clock.now
    ensures store.readings == old(store.readings) + RowOf(j)
    ensures store.alerts.events == old(store.alerts.events) + UpsertsOf(j, txNow)
    ensures touched == |UpsertsOf(j, txNow)|
  {
    var thresholds;
    ghost var source;
    thresholds, source, loads', ts := ResolveThresholdsWithCache(cache, clock, onu, listing, loads, k);
    var critical := HasCriticalViolation(reading, thresholds);
    store.readings := store.readings + [Row(onu, reading, critical)];
    touched := RaiseAlerts(store.alerts, onu, reading, thresholds, txNow);
    j := Known(reading, onu, thresholds, source, clock.now, |ts|);
  }

  /** Readings of unmapped serials are discarded. */
  method TakeReading(store: OpticalStore, cache: ThresholdCache, clock: Clock, reading: Reading, serials: SerialMap,
                     listing: seq<Policy>, txNow: Time, ghost loads: seq<Load>, ghost k: nat)
    returns (known: bool, touched: nat, ghost j: Judged, ghost loads': seq<Load>, ghost ts: seq<Time>)
    requires store.alerts.Valid() && cache.Valid() && cache.seen <= clock.now && Loaded(cache.log, loads)
    modifies store, store.alerts, cache, clock
    ensures store.alerts.Valid() && cache.Valid() && cache.seen <= clock.now && Loaded(cache.log, loads')
    ensures j.reading == reading && known == j.Known? && (j.Known? <==> reading.serial in serials)
    ensures j.Unknown? ==> loads' == loads && touched == 0
    ensures j.Known? ==>
      && j.onu == j.source.onu == serials[reading.serial].0
      && j.thresholds == Resolve(j.source.policies) && j.at < j.source.at + cache.ttl
      && ((loads' == loads && j.source in loads && j.readings == HIT_READINGS)
          || (loads' == loads + [j.source] && j.source == Load(j.onu, listing, j.at, k) && 2 <= j.readings <= HIT_READINGS + 1))
    ensures clock.trace == old(clock.trace) + ts && Rising(old(clock.now), ts, clock.now)
    ensures if j.Unknown? then ts == [] else |ts| == j.readings && ts[|ts| - 1] == j.at
    ensures store.readings == old(store.readings) + RowOf(j)
    ensures store.alerts.events == old(store.alerts.events) + UpsertsOf(j, txNow)
    ensures touched == |UpsertsOf(j, txNow)|
  {
    j, known, touched, loads', ts := Unknown(reading), reading.serial in serials, 0, loads, [];
    if known {
      var (onu, _) := serials[reading.serial];
      touched, j, loads', ts := PersistReading(store, cache, clock, onu, reading, listing, txNow, loads, k);
    }
  }

  lemma TimedSnoc(js: seq<Judged>, earlier: seq<Time>, j: Judged, ts: seq<Time>)
    requires Timed(js, earlier)
    requires if j.Unknown? then ts == [] else |ts| == j.readings > 0 && ts[|ts| - 1] == j.at
    ensures Timed(js + [j], earlier + ts)
  {
    assert (js + [j])[..|js|] == js;
    assert (earlier + ts)[..|earlier|] == earlier && (ts == [] ==> earlier + ts == earlier);
  }

  /** Appending what one reading stores appends it to the record of the batch. */
  lemma Grow(rows: seq<Row>, events: seq<Alerts.Event>, js: seq<Judged>, j: Judged, at: Time)
    ensures rows + AllRows(js) + RowOf(j) == rows + AllRows(js + [j])
    ensures events + AllUpserts(js, at) + UpsertsOf(j, at) == events + AllUpserts(js + [j], at)
  {
    Snoc(js, j, at);
    Associates(rows, AllRows(js), RowOf(j));
    Associates(events, AllUpserts(js, at), UpsertsOf(j, at));
  }

  lemma Associates<T>(a: seq<T>, b: seq<T>, c: seq<T>)
    ensures a + b + c == a + (b + c)
  {
  }

  /** The record of the first readings, and the loads they made. */
  ghost predicate Recorded(js: seq<Judged>, loads: seq<Load>, log: ThresholdLog, readings: seq<Reading>, serials: SerialMap,
                           listings: seq<seq<Policy>>, ttl: Time) {
    && |js| <= |readings| && Loaded(log, loads)
    && AllSound(js, readings, serials, listings, ttl) && AllOwn(loads, js, readings, serials, listings)
  }

  /** What the store and the counters hold on top of the prior rows and alert events. */
  ghost predicate Stored(rows: seq<Row>, events: seq<Alerts.Event>, priorRows: seq<Row>, priorEvents: seq<Alerts.Event>,
                         js: seq<Judged>, txNow: Time, unknown: nat, persisted: nat, alertCount: nat) {
    && rows == priorRows + AllRows(js) && events == priorEvents + AllUpserts(js, txNow)
    && unknown == CountUnknown(js) && persisted == |AllRows(js)| && alertCount == |AllUpserts(js, txNow)|
  }

  /** The clock's readings of the first readings of the batch. */
  ghost predicate Clocked(js: seq<Judged>, ts: seq<Time>, trace: seq<Time>, base: seq<Time>, from: Time, to: Time) {
    trace == base + ts && Rising(from, ts, to) && Timed(js, ts)
  }

  /**
   * One turn of the loop: the reading is discarded or persisted, and the record of the batch grows by one.
   * A store that held the prior rows and those of the record now holds the prior rows and those of the longer record.
   */
  method HandleReading(store: OpticalStore, cache: ThresholdCache, clock: Clock, readings: seq<Reading>, serials: SerialMap,
                       listings: seq<seq<Policy>>, txNow: Time, i: nat, unknown: nat, persisted: nat, alertCount: nat,
                       ghost js: seq<Judged>, ghost loads: seq<Load>, ghost priorRows: seq<Row>, ghost priorEvents: seq<Alerts.Event>,
                       ghost ts: seq<Time>, ghost from: Time, ghost base: seq<Time>)
    returns (unknown': nat, persisted': nat, alertCount': nat, ghost js': seq<Judged>, ghost loads': seq<Load>, ghost ts': seq<Time>)
    requires i == |js| < |readings| == |listings|
    requires store.alerts.Valid() && cache.Valid() && cache.seen <= clock.now
    requires Recorded(js, loads, cache.log, readings, serials, listings, cache.ttl)
    requires Stored(store.readings, store.alerts.events, priorRows, priorEvents, js, txNow, unknown, persisted, alertCount)
    requires Clocked(js, ts, clock.trace, base, from, clock.now)
    modifies store, store.alerts, cache, clock
    ensures store.alerts.Valid() && cache.Valid() && cache.seen <= clock.now
    ensures |js'| == i + 1 && Recorded(js', loads', cache.log, readings, serials, listings, cache.ttl)
    ensures Stored(store.readings, store.alerts.events, priorRows, priorEvents, js', txNow, unknown', persisted', alertCount')
    ensures Clocked(js', ts', clock.trace, base, from, clock.now)
  {
    var known, touched;
    ghost var j, more;
    known, touched, j, loads', more := TakeReading(store, cache, clock, readings[i], serials, listings[i], txNow, loads, i);
    HandledSoundly(js, j, loads, loads', readings, serials, listings, cache.ttl, i);
    Snoc(js, j, txNow);
    Grow(priorRows, priorEvents, js, j, txNow);
    TimedSnoc(js, ts, j, more);
    RisingAppend(from, ts, old(clock.now), more, clock.now);
    Associates(base, ts, more);
    js', ts' := js + [j], ts + more;
    if known {
      unknown', persisted', alertCount' := unknown, persisted + 1, alertCount + touched;
    } else {
      unknown', persisted', alertCount' := unknown + 1, persisted, alertCount;
    }
  }

  /**
   * Phase 3. The listings say which policies a query would return at each reading; NOW() is fixed for the transaction.
   */
  method PhasePersistReadings(store: OpticalStore, clock: Clock, ttl: Time, readings: seq<Reading>,
                              serials: SerialMap, listings: seq<seq<Policy>>, txNow: Time)
    returns (unknown: nat, persisted: nat, alertCount: nat, ghost js: seq<Judged>, ghost ts: seq<Time>)
    requires ttl > 0.0 && |listings| == |readings|
    requires store.alerts.Valid() && 0.0 <= clock.now
    modifies store, store.alerts, clock
    ensures |js| == |readings| && AllSound(js, readings, serials, listings, ttl)
    ensures clock.trace == old(clock.trace) + ts && Rising(old(clock.now), ts, clock.now) && Timed(js, ts)
    ensures unknown == CountUnknown(js) && persisted == |AllRows(js)| && alertCount == |AllUpserts(js, txNow)|
    ensures store.readings == old(store.readings) + AllRows(js)
    ensures store.alerts.Valid() && store.alerts.events == old(store.alerts.events) + AllUpserts(js, txNow)
  {
    var cache := new ThresholdCache(ttl);
    unknown, persisted, alertCount, js, ts := 0, 0, 0, [], [];
    ghost var loads: seq<Load> := [];
    ghost var from, base, priorRows, priorEvents := clock.now, clock.trace, store.readings, store.alerts.events;
    for i := 0 to |readings|
      invariant fresh(cache) && cache.Valid() && cache.ttl == ttl && cache.seen <= clock.now && store.alerts.Valid()
      invariant |js| == i && Recorded(js, loads, cache.log, readings, serials, listings, ttl)
      invariant Clocked(js, ts, clock.trace, base, from, clock.now)
      invariant Stored(store.readings, store.alerts.events, priorRows, priorEvents, js, txNow, unknown, persisted, alertCount)
    {
      unknown, persisted, alertCount, js, loads, ts :=
        HandleReading(store, cache, clock, readings, serials, listings, txNow, i, unknown, persisted, alertCount,
                      js, loads, priorRows, priorEvents, ts, from, base);
    }
  }

  /** What the phase amounts to: every reading is counted once, and the job is partial exactly when a serial is unmapped. */
  lemma BatchMeaning(js: seq<Judged>, readings: seq<Reading>, serials: SerialMap, listings: seq<seq<Policy>>, ttl: Time)
    requires |js| == |readings| && AllSound(js, readings, serials, listings, ttl)
    ensures forall k | 0 <= k < |js| :: Sound(js[k], readings, serials, listings, ttl, k) && (js[k].Known? ==> MadeBy(js[k].source, js))
    ensures CountUnknown(js) + |AllRows(js)| == |readings|
    ensures FinalStatus(CountUnknown(js)) == Partial <==> exists k :: 0 <= k < |readings| && readings[k].serial !in serials
  {
    SoundAt(js, readings, serials, listings, ttl);
    Accounting(js);
    assert forall k | 0 <= k < |js| :: js[k].Unknown? <==> readings[k].serial !in serials;
  }

  /** The effective threshold of a policy: one that has its fields. */
  lemma HasEffective(p: Policy) returns (e: Effective)
    ensures TakenFrom(e, p)
  {
    e := Effective(p.metric, p.id, p.scope, p.scopeId, p.min, p.max, p.severity);
  }

  /** The alert event of a violation. */
  ghost predicate Raises(e: Alerts.Event, r: Reading, onu: Id, policies: seq<Policy>, at: Time, metric: string, v: real, i: nat) {
    && Violates(r, policies, metric, v, i)
    && e == Alerts.Violated(Alerts.Violation(Alerts.Subject(onu, metric), policies[i].id, v, at))
  }

  /**
   * What the batch stores for a known reading: one alert event for each metric whose value violates the policy governing it
   * in the listing used, and a row that is critical exactly when one of these policies is.
   */
  lemma BatchAlarms(js: seq<Judged>, readings: seq<Reading>, serials: SerialMap, listings: seq<seq<Policy>>, ttl: Time, txNow: Time, k: nat)
    requires |js| == |readings| && AllSound(js, readings, serials, listings, ttl) && k < |js| && js[k].Known?
    ensures readings[k].serial in serials
    ensures var onu, policies := serials[readings[k].serial].0, js[k].source.policies;
            && (forall e :: e in UpsertsOf(js[k], txNow) <==>
                  exists metric, v, i: nat :: Raises(e, readings[k], onu, policies, txNow, metric, v, i))
            && |RowOf(js[k])| == 1 && RowOf(js[k])[0].onu == onu && RowOf(js[k])[0].reading == readings[k]
            && (RowOf(js[k])[0].alertCritical <==>
                  exists metric, v, i: nat :: Violates(readings[k], policies, metric, v, i) && policies[i].severity == Critical)
  {
    SoundAt(js, readings, serials, listings, ttl);
    var onu, policies := serials[readings[k].serial].0, js[k].source.policies;
    assert Sound(js[k], readings, serials, listings, ttl, k);
    EventsRaise(readings[k], policies, onu, txNow);
    CriticalIff(readings[k], policies);
  }

  lemma EventsRaise(r: Reading, policies: seq<Policy>, onu: Id, at: Time)
    ensures forall e :: e in ToEvents(onu, Alarms(r, Resolve(policies)), at) <==>
              exists metric, v, i: nat :: Raises(e, r, onu, policies, at, metric, v, i)
  {
    var alarms := Alarms(r, Resolve(policies));
    forall e
      ensures e in ToEvents(onu, alarms, at) <==> exists metric, v, i: nat :: Raises(e, r, onu, policies, at, metric, v, i)
    {
      if e in ToEvents(onu, alarms, at) {
        var n :| 0 <= n < |alarms| && ToEvents(onu, alarms, at)[n] == e;
        AlarmsAreViolations(r, policies, alarms[n]);
        var i: nat :| Violates(r, policies, alarms[n].metric, alarms[n].value, i) && TakenFrom(alarms[n].policy, policies[i]);
        assert Raises(e, r, onu, policies, at, alarms[n].metric, alarms[n].value, i);
      }
      if metric, v, i: nat :| Raises(e, r, onu, policies, at, metric, v, i) {
        var effective := HasEffective(policies[i]);
        var a := Alarm(metric, v, effective);
        AlarmsAreViolations(r, policies, a);
        var n :| 0 <= n < |alarms| && alarms[n] == a;
        assert ToEvents(onu, alarms, at)[n] == e;
      }
    }
  }

  lemma CriticalIff(r: Reading, policies: seq<Policy>)
    ensures AnyCritical(Alarms(r, Resolve(policies))) <==>
            exists metric, v, i: nat :: Violates(r, policies, metric, v, i) && policies[i].severity == Critical
  {
    if a :| a in Alarms(r, Resolve(policies)) && a.policy.severity.Critical? {
      AlarmsAreViolations(r, policies, a);
      var i: nat :| Violates(r, policies, a.metric, a.value, i) && TakenFrom(a.policy, policies[i]);
      assert policies[i].severity == Critical;
    }
    if metric, v, i: nat :| Violates(r, policies, metric, v, i) && policies[i].severity == Critical {
      var effective := HasEffective(policies[i]);
      AlarmsAreViolations(r, policies, Alarm(metric, v, effective));
      assert Alarm(metric, v, effective) in Alarms(r, Resolve(policies));
    }
  }

  /** The last part of the worker's run: phase 3 and the status it decides. */
  method PersistAndDecide(store: OpticalStore, clock: Clock, ttl: Time, readings: seq<Reading>,
                          serials: SerialMap, listings: seq<seq<Policy>>, txNow: Time)
    returns (unknown: nat, persisted: nat, status: JobStatus, ghost js: seq<Judged>, ghost ts: seq<Time>)
    requires ttl > 0.0 && |listings| == |readings|
    requires store.alerts.Valid() && 0.0 <= clock.now
    modifies store, store.alerts, clock
    ensures unknown + persisted == |readings|
    ensures status == Partial <==> exists k :: 0 <= k < |readings| && readings[k].serial !in serials
    ensures |js| == |readings|
    ensures forall k | 0 <= k < |js| :: Sound(js[k], readings, serials, listings, ttl, k) && (js[k].Known? ==> MadeBy(js[k].source, js))
    ensures clock.trace == old(clock.trace) + ts && Timed(js, ts)
    ensures forall k | 0 <= k < |js| && js[k].Known? :: old(clock.now) <= js[k].at <= clock.now
    ensures forall i, k | 0 <= i <= k < |js| && js[i].Known? && js[k].Known? :: js[i].at <= js[k].at
    ensures store.readings == old(store.readings) + AllRows(js)
    ensures store.alerts.Valid() && store.alerts.events == old(store.alerts.events) + AllUpserts(js, txNow)
  {
    var alertCount;
    unknown, persisted, alertCount, js, ts := PhasePersistReadings(store, clock, ttl, readings, serials, listings, txNow);
    status := FinalStatus(unknown);
    TimedMeaning(js, ts, old(clock.now), clock.now);
    BatchMeaning(js, readings, serials, listings, ttl);
  }
}
