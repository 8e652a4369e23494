/**
 * The Unix disk I/O check: from two successive samples of the cumulative
 * per-device block I/O counters it derives iostat-style throughput, latency,
 * queue, service-time and utilisation gauges, and it forwards four raw
 * counters as rates. The check keeps the previous sample and its timestamp
 * between runs.
 */
module IOStats {
  import opened Wrappers

  // ---------------------------------------------------------------------
  // Unsigned 64-bit counters
  // ---------------------------------------------------------------------

  const TWO64: int := 0x1_0000_0000_0000_0000

  newtype u64 = x: int | 0 <= x < TWO64

  /** Go's `a - b` on uint64: the true difference when the counter did not
      go backwards, otherwise wrapped round modulo 2^64 (never an error). */
  function Sub64(a: u64, b: u64): (d: u64)
    ensures b <= a ==> d as int == a as int - b as int
    ensures a < b ==> d as int == a as int - b as int + TWO64
  {
    ((a as int - b as int) % TWO64) as u64
  }

  /** Go's `a + b` on uint64. */
  function Add64(a: u64, b: u64): (s: u64)
    ensures a as int + b as int < TWO64 ==> s as int == a as int + b as int
    ensures TWO64 <= a as int + b as int ==> s as int == a as int + b as int - TWO64
  {
    ((a as int + b as int) % TWO64) as u64
  }

  /** `float64(cur - last)`: a counter delta taken in uint64, then widened. */
  function FloatDelta(cur: u64, last: u64): (d: real)
    ensures 0.0 <= d < TWO64 as real
    ensures last <= cur ==> d == (cur - last) as real
    ensures cur < last ==> d == (cur as int - last as int + TWO64) as real
  {
    Sub64(cur, last) as real
  }

  /** Go's `cur1 - last1 + cur2 - last2` on uint64, evaluated left to right:
      the sum of the two deltas, itself wrapped modulo 2^64. */
  function WrappedSum(cur1: u64, last1: u64, cur2: u64, last2: u64): (s: u64)
    ensures s as int == (Sub64(cur1, last1) as int + Sub64(cur2, last2) as int) % TWO64
  {
    Sub64(Add64(Sub64(cur1, last1), cur2), last2)
  }

  // ---------------------------------------------------------------------
  // Counter samples and emitted metrics
  // ---------------------------------------------------------------------

  /** One device's cumulative counters as the OS reports them. */
  datatype Counters = Counters(
    readCount: u64,
    mergedReadCount: u64,
    writeCount: u64,
    mergedWriteCount: u64,
    readBytes: u64,
    writeBytes: u64,
    readTime: u64,
    writeTime: u64,
    ioTime: u64,
    weightedIO: u64,
    diskLabel: string)

  /** A rate is a raw cumulative value the metrics sink turns into a per-second
      rate; a gauge is a value already computed here. */
  datatype Kind = Rate | Gauge

  datatype Metric = Metric(kind: Kind, name: string, value: real, tags: seq<string>)

  /** Bytes per kilobyte; it divides float64 values. */
  const KB: real := 1024.0

  /** Bytes per disk sector; it divides a uint64 value. */
  const SectorSize: u64 := 512

  const RateNames: seq<string> :=
    ["system.io.r_s", "system.io.w_s", "system.io.rrqm_s", "system.io.wrqm_s"]

  const GaugeNames: seq<string> :=
    ["system.io.rkb_s", "system.io.wkb_s", "system.io.avg_rq_sz", "system.io.await",
     "system.io.r_await", "system.io.w_await", "system.io.avg_q_sz", "system.io.svctm",
     "system.io.util"]

  function Values(ms: seq<Metric>): (vs: seq<real>)
  {
    seq(|ms|, i requires 0 <= i < |ms| => ms[i].value)
  }

  function Names(ms: seq<Metric>): (ns: seq<string>)
  {
    seq(|ms|, i requires 0 <= i < |ms| => ms[i].name)
  }

  // ---------------------------------------------------------------------
  // Rounding
  // ---------------------------------------------------------------------

  /** `x` is a whole number of hundredths. */
  predicate IsHundredths(x: real)
  {
    (x * 100.0).Floor as real == x * 100.0
  }

  /** `math.Round(val*100) / 100`: the nearest hundredth, halves away from zero. */
  function Round(val: real): (r: real)
    ensures IsHundredths(r)
    ensures -0.005 <= r - val <= 0.005
    ensures 0.0 <= val ==> 0.0 <= r
    ensures val <= 0.0 ==> r <= 0.0
  {
    if 0.0 <= val then
      var k := HalfUp(val * 100.0);
      Hundredths(k);
      k as real / 100.0
    else
      var k := HalfUp(-val * 100.0);
      Hundredths(-k);
      -(k as real) / 100.0
  }

  /** The integer nearest to `y`, halves rounded up. */
  function HalfUp(y: real): (k: int)
    ensures y - 0.5 < k as real <= y + 0.5
  {
    (y + 0.5).Floor
  }

  lemma Hundredths(k: int)
    ensures (k as real / 100.0) * 100.0 == k as real
    ensures ((k as real / 100.0) * 100.0).Floor == k
  {
  }

  /** A value that is already a whole number of hundredths is left alone. */
  lemma RoundHundredths(k: int)
    ensures Round(k as real / 100.0) == k as real / 100.0
  {
    var x := k as real / 100.0;
    assert x * 100.0 == k as real;
    if 0 <= k {
      assert (x * 100.0 + 0.5).Floor == k;
    } else {
      assert (-x * 100.0 + 0.5).Floor == -k;
    }
  }

  lemma RoundIdempotent(val: real)
    ensures Round(Round(val)) == Round(val)
  {
    var r := Round(val);
    var k := (r * 100.0).Floor;
    assert r == k as real / 100.0;
    RoundHundredths(k);
  }

  // ---------------------------------------------------------------------
  // Derived gauges
  // ---------------------------------------------------------------------

  /** `avg := 0.0; if ops != 0 { avg = total / ops }`. */
  function PerOp(total: real, ops: real): (avg: real)
    ensures ops == 0.0 ==> avg == 0.0
    ensures ops != 0.0 ==> avg * ops == total
    ensures 0.0 <= total && 0.0 <= ops ==> 0.0 <= avg
  {
    if ops != 0.0 then total / ops else 0.0
  }

  /** `float64(delta) / kB / deltaSecond`: a counter delta in kilo-units per second. */
  function PerKBSecond(amount: real, delta: real): (r: real)
    requires delta != 0.0
    ensures r * KB * (delta / 1000.0) == amount
    ensures 0.0 <= amount && 0.0 < delta ==> 0.0 <= r
  {
    var deltaSecond := delta / 1000.0;
    assert amount / KB / deltaSecond * KB * deltaSecond == amount;
    amount / KB / deltaSecond
  }

  /** One device's counter deltas between two samples, as the float64 values
      the formulas divide: each is a uint64 subtraction widened to float64. */
  datatype Deltas = Deltas(
    readCount: real,
    writeCount: real,
    readBytes: real,
    writeBytes: real,
    readTime: real,
    writeTime: real,
    ioTime: real,
    weightedIO: real,
    sectors: real,    // (read bytes + write bytes) / SectorSize, in uint64
    waitTime: real)   // read time + write time, in uint64

  predicate NonNegative(d: Deltas)
  {
    && 0.0 <= d.readCount && 0.0 <= d.writeCount && 0.0 <= d.readBytes && 0.0 <= d.writeBytes
    && 0.0 <= d.readTime && 0.0 <= d.writeTime && 0.0 <= d.ioTime && 0.0 <= d.weightedIO
    && 0.0 <= d.sectors && 0.0 <= d.waitTime
  }

  /** No counter went backwards and neither sum of two deltas overflows uint64. */
  predicate NoWrap(cur: Counters, last: Counters)
  {
    && last.readCount <= cur.readCount && last.writeCount <= cur.writeCount
    && last.readBytes <= cur.readBytes && last.writeBytes <= cur.writeBytes
    && last.readTime <= cur.readTime && last.writeTime <= cur.writeTime
    && last.ioTime <= cur.ioTime && last.weightedIO <= cur.weightedIO
    && (cur.readBytes - last.readBytes) as int + (cur.writeBytes - last.writeBytes) as int < TWO64
    && (cur.readTime - last.readTime) as int + (cur.writeTime - last.writeTime) as int < TWO64
  }

  /** Sectors moved between the two samples: the wrapped byte total, divided
      by the sector size in integer arithmetic. */
  function SectorsMoved(cur: Counters, last: Counters): (s: u64)
    ensures var bytes := (Sub64(cur.readBytes, last.readBytes) as int + Sub64(cur.writeBytes, last.writeBytes) as int) % TWO64;
            s as int * SectorSize as int <= bytes < (s as int + 1) * SectorSize as int
  {
    WrappedSum(cur.readBytes, last.readBytes, cur.writeBytes, last.writeBytes) / SectorSize
  }

  /** Milliseconds spent on reads plus writes between the two samples. */
  function WaitTime(cur: Counters, last: Counters): (t: u64)
    ensures t as int == (Sub64(cur.readTime, last.readTime) as int + Sub64(cur.writeTime, last.writeTime) as int) % TWO64
  {
    WrappedSum(cur.readTime, last.readTime, cur.writeTime, last.writeTime)
  }

  /** The deltas the derived gauges are computed from. None is ever negative;
      when nothing wrapped they are the plain differences of the counters. */
  function CounterDeltas(cur: Counters, last: Counters): (d: Deltas)
    ensures NonNegative(d)
    ensures NoWrap(cur, last) ==>
      && d.readCount == (cur.readCount - last.readCount) as real
      && d.writeCount == (cur.writeCount - last.writeCount) as real
      && d.readBytes == (cur.readBytes - last.readBytes) as real
      && d.writeBytes == (cur.writeBytes - last.writeBytes) as real
      && d.readTime == (cur.readTime - last.readTime) as real
      && d.writeTime == (cur.writeTime - last.writeTime) as real
      && d.ioTime == (cur.ioTime - last.ioTime) as real
      && d.weightedIO == (cur.weightedIO - last.weightedIO) as real
      && d.sectors == (((cur.readBytes - last.readBytes) as int + (cur.writeBytes - last.writeBytes) as int) / SectorSize as int) as real
      && d.waitTime == ((cur.readTime - last.readTime) as int + (cur.writeTime - last.writeTime) as int) as real
  {
    Deltas(
      FloatDelta(cur.readCount, last.readCount),
      FloatDelta(cur.writeCount, last.writeCount),
      FloatDelta(cur.readBytes, last.readBytes),
      FloatDelta(cur.writeBytes, last.writeBytes),
      FloatDelta(cur.readTime, last.readTime),
      FloatDelta(cur.writeTime, last.writeTime),
      FloatDelta(cur.ioTime, last.ioTime),
      FloatDelta(cur.weightedIO, last.weightedIO),
      SectorsMoved(cur, last) as real,
      WaitTime(cur, last) as real)
  }

  /** The nine derived values of one device, before rounding. */
  datatype Gauges = Gauges(
    rkbs: real,
    wkbs: real,
    avgRqSz: real,
    await: real,
    rAwait: real,
    wAwait: real,
    avgQuSz: real,
    svctm: real,
    util: real)

  /** The derived values for a device whose previous sample was taken `delta`
      milliseconds earlier. Every division is either by the nonzero elapsed
      time or guarded against a zero operation count. When time moved forward
      no derived value is negative: the deltas are uint64 results, so a
      counter that went backwards yields a huge delta, never a negative one. */
  function Derive(d: Deltas, delta: real): (g: Gauges)
    requires delta != 0.0
    ensures NonNegative(d) && 0.0 < delta ==>
      && 0.0 <= g.rkbs && 0.0 <= g.wkbs && 0.0 <= g.avgQuSz
      && 0.0 <= g.rAwait && 0.0 <= g.wAwait && 0.0 <= g.avgRqSz && 0.0 <= g.await
      && 0.0 <= g.util && 0.0 <= g.svctm
  {
    var rkbs := PerKBSecond(d.readBytes, delta);
    var wkbs := PerKBSecond(d.writeBytes, delta);
    var avgQuSz := PerKBSecond(d.weightedIO, delta);
    var rAwait := PerOp(d.readTime, d.readCount);
    var wAwait := PerOp(d.writeTime, d.writeCount);
    var diffNIO := d.readCount + d.writeCount;
    var avgRqSz := PerOp(d.sectors, diffNIO);
    var aWait := PerOp(d.waitTime, diffNIO);
    var util := Utilization(d.ioTime, delta);
    var svctime := ServiceTime(d.ioTime, diffNIO, delta);
    Gauges(rkbs, wkbs, avgRqSz, aWait, rAwait, wAwait, avgQuSz, svctime, util)
  }

  /** Read and write throughput and average queue size: a delta in
      kilo-units spread over the elapsed seconds. */
  lemma DeriveThroughput(d: Deltas, delta: real)
    requires delta != 0.0
    ensures Derive(d, delta).rkbs * KB * (delta / 1000.0) == d.readBytes
    ensures Derive(d, delta).wkbs * KB * (delta / 1000.0) == d.writeBytes
    ensures Derive(d, delta).avgQuSz * KB * (delta / 1000.0) == d.weightedIO
  {
  }

  /** Read and write await: the time per completed operation of that kind,
      0 when none completed. */
  lemma DeriveAwaits(d: Deltas, delta: real)
    requires delta != 0.0
    ensures d.readCount == 0.0 ==> Derive(d, delta).rAwait == 0.0
    ensures d.readCount != 0.0 ==> Derive(d, delta).rAwait * d.readCount == d.readTime
    ensures d.writeCount == 0.0 ==> Derive(d, delta).wAwait == 0.0
    ensures d.writeCount != 0.0 ==> Derive(d, delta).wAwait * d.writeCount == d.writeTime
  {
  }

  /** The figures over all operations: request size in sectors, await and
      service time per operation, each 0 when no operation completed, while
      utilisation is computed from the busy time in every case. */
  lemma DerivePerOperation(d: Deltas, delta: real)
    requires delta != 0.0
    ensures d.readCount + d.writeCount == 0.0 ==>
      Derive(d, delta).avgRqSz == 0.0 && Derive(d, delta).await == 0.0 && Derive(d, delta).svctm == 0.0
    ensures d.readCount + d.writeCount != 0.0 ==> Derive(d, delta).avgRqSz * (d.readCount + d.writeCount) == d.sectors
    ensures d.readCount + d.writeCount != 0.0 ==> Derive(d, delta).await * (d.readCount + d.writeCount) == d.waitTime
    ensures d.readCount + d.writeCount != 0.0 ==> Derive(d, delta).svctm * (d.readCount + d.writeCount) == d.ioTime
    ensures Derive(d, delta).util * delta == d.ioTime * 1000.0
  {
  }

  /** `diffNIO * 100 / itv` with `itv = delta / 10`, the interval in hundredths
      of a second: completed operations per second. */
  function Throughput(ops: real, delta: real): (tput: real)
    requires delta != 0.0
    ensures tput * delta == ops * 1000.0
    ensures tput == 0.0 <==> ops == 0.0
    ensures 0.0 <= ops && 0.0 < delta ==> 0.0 <= tput
  {
    var itv := delta / 10.0;
    assert ops * 100.0 / itv == ops * 1000.0 / delta;
    ops * 100.0 / itv
  }

  /** `busy / itv * 100` with `itv = delta / 10`: ten times the percentage of
      the interval the device was busy. */
  function Utilization(busy: real, delta: real): (util: real)
    requires delta != 0.0
    ensures util * delta == busy * 1000.0
    ensures 0.0 <= busy && 0.0 < delta ==> 0.0 <= util
  {
    var itv := delta / 10.0;
    assert busy / itv * 100.0 == busy * 1000.0 / delta;
    busy / itv * 100.0
  }

  /** `svctime := 0; if tput != 0 { svctime = util / tput }`, with `tput` and
      `util` as above: the busy time per completed operation, 0 when none completed. */
  function ServiceTime(busy: real, ops: real, delta: real): (svctm: real)
    requires delta != 0.0
    ensures ops == 0.0 ==> svctm == 0.0
    ensures ops != 0.0 ==> svctm * ops == busy
    ensures 0.0 <= busy && 0.0 <= ops && 0.0 < delta ==> 0.0 <= svctm
  {
    var tput := Throughput(ops, delta);
    var util := Utilization(busy, delta);
    BusyPerOp(PerOp(util, tput), tput, util, ops, busy, delta);
    PerOp(util, tput)
  }

  lemma BusyPerOp(svctm: real, tput: real, util: real, ops: real, busy: real, delta: real)
    requires delta != 0.0
    requires tput * delta == ops * 1000.0 && util * delta == busy * 1000.0
    requires tput != 0.0 ==> svctm * tput == util
    ensures ops != 0.0 ==> svctm * ops == busy
  {
    if ops != 0.0 {
      assert tput != 0.0;
      calc {
        svctm * ops * 1000.0;
        svctm * (tput * delta);
        (svctm * tput) * delta;
        util * delta;
        busy * 1000.0;
      }
    }
  }

  // ---------------------------------------------------------------------
  // Per-device emission
  // ---------------------------------------------------------------------

  /** The device tag: the label when the OS gave one, the map key otherwise. */
  function Tag(device: string, c: Counters): (t: string)
    ensures |t| >= 7 && t[..7] == "device:"
    ensures c.diskLabel != "" ==> t[7..] == c.diskLabel
    ensures c.diskLabel == "" ==> t[7..] == device
  {
    "device:" + (if c.diskLabel != "" then c.diskLabel else device)
  }

  /** The four counters every non-blacklisted device reports, raw and cumulative. */
  function RateMetrics(c: Counters, tag: string): (ms: seq<Metric>)
    ensures Names(ms) == RateNames
    ensures forall m <- ms :: m.kind == Rate && m.tags == [tag]
    ensures ms[0].value == c.readCount as real && ms[1].value == c.writeCount as real
    ensures ms[2].value == c.mergedReadCount as real && ms[3].value == c.mergedWriteCount as real
  {
    [Metric(Rate, "system.io.r_s", c.readCount as real, [tag]),
     Metric(Rate, "system.io.w_s", c.writeCount as real, [tag]),
     Metric(Rate, "system.io.rrqm_s", c.mergedReadCount as real, [tag]),
     Metric(Rate, "system.io.wrqm_s", c.mergedWriteCount as real, [tag])]
  }

  /** The nine gauges, each the rounded value of its derived figure;
      utilisation is reported as a tenth of the computed figure, that is as
      a percentage of busy time. */
  function GaugeMetrics(g: Gauges, tag: string): (ms: seq<Metric>)
    ensures Names(ms) == GaugeNames
    ensures forall m <- ms :: m.kind == Gauge && m.tags == [tag]
    ensures Values(ms) == [Round(g.rkbs), Round(g.wkbs), Round(g.avgRqSz), Round(g.await), Round(g.rAwait),
                           Round(g.wAwait), Round(g.avgQuSz), Round(g.svctm), Round(g.util / 10.0)]
  {
    [Metric(Gauge, "system.io.rkb_s", Round(g.rkbs), [tag]),
     Metric(Gauge, "system.io.wkb_s", Round(g.wkbs), [tag]),
     Metric(Gauge, "system.io.avg_rq_sz", Round(g.avgRqSz), [tag]),
     Metric(Gauge, "system.io.await", Round(g.await), [tag]),
     Metric(Gauge, "system.io.r_await", Round(g.rAwait), [tag]),
     Metric(Gauge, "system.io.w_await", Round(g.wAwait), [tag]),
     Metric(Gauge, "system.io.avg_q_sz", Round(g.avgQuSz), [tag]),
     Metric(Gauge, "system.io.svctm", Round(g.svctm), [tag]),
     Metric(Gauge, "system.io.util", Round(g.util / 10.0), [tag])]
  }

  /** Every gauge sent is a whole number of hundredths. */
  lemma GaugesInHundredths(g: Gauges, tag: string)
    ensures forall v <- Values(GaugeMetrics(g, tag)) :: IsHundredths(v)
  {
    var vs := Values(GaugeMetrics(g, tag));
    forall v <- vs
      ensures IsHundredths(v)
    {
      var val :| val in [g.rkbs, g.wkbs, g.avgRqSz, g.await, g.rAwait, g.wAwait, g.avgQuSz, g.svctm, g.util / 10.0]
                 && v == Round(val);
    }
  }

  /** The device was blacklisted: a pattern is configured and it matches the name. */
  predicate Blacklisted(blacklist: Option<string -> bool>, device: string)
    ensures blacklist.None? ==> !Blacklisted(blacklist, device)
    ensures blacklist.Some? ==> (Blacklisted(blacklist, device) <==> blacklist.value(device))
  {
    blacklist.Some? && blacklist.value(device)
  }

  /** A device gets derived gauges only when there is a previous cycle, the
      device was in it, and time has moved since. */
  predicate HasBaseline(device: string, prevTs: int, prevStats: map<string, Counters>, now: int)
    ensures prevTs == 0 ==> !HasBaseline(device, prevTs, prevStats, now)
    ensures device !in prevStats ==> !HasBaseline(device, prevTs, prevStats, now)
    ensures now == prevTs ==> !HasBaseline(device, prevTs, prevStats, now)
    ensures prevTs != 0 && device in prevStats && now != prevTs ==> HasBaseline(device, prevTs, prevStats, now)
  {
    prevTs != 0 && device in prevStats && now - prevTs != 0
  }

  /** What one non-blacklisted device emits in a cycle, in emission order. */
  function DeviceEmission(device: string, c: Counters, prevTs: int, prevStats: map<string, Counters>, now: int): (ms: seq<Metric>)
    ensures |ms| == if HasBaseline(device, prevTs, prevStats, now) then 13 else 4
    ensures ms[..4] == RateMetrics(c, Tag(device, c))
    ensures forall m <- ms :: m.tags == [Tag(device, c)]
    ensures HasBaseline(device, prevTs, prevStats, now) ==>
      ms[4..] == GaugeMetrics(Derive(CounterDeltas(c, prevStats[device]), (now - prevTs) as real), Tag(device, c))
  {
    var tag := Tag(device, c);
    var rates := RateMetrics(c, tag);
    if HasBaseline(device, prevTs, prevStats, now) then
      rates + GaugeMetrics(Derive(CounterDeltas(c, prevStats[device]), (now - prevTs) as real), tag)
    else
      rates
  }

  /** Which metrics a device gets: the four rates always, then the nine
      gauges exactly when it has a baseline. */
  lemma DeviceMetricNames(device: string, c: Counters, prevTs: int, prevStats: map<string, Counters>, now: int)
    ensures Names(DeviceEmission(device, c, prevTs, prevStats, now)) ==
      RateNames + if HasBaseline(device, prevTs, prevStats, now) then GaugeNames else []
  {
    if HasBaseline(device, prevTs, prevStats, now) {
      var tag := Tag(device, c);
      NamesAppend(RateMetrics(c, tag), GaugeMetrics(Derive(CounterDeltas(c, prevStats[device]), (now - prevTs) as real), tag));
    }
  }

  lemma NamesAppend(a: seq<Metric>, b: seq<Metric>)
    ensures Names(a + b) == Names(a) + Names(b)
  {
  }

  /** Everything one successful cycle emits, keyed by device: each device
      that is not blacklisted, and nothing for a blacklisted one. */
  function CycleEmission(blacklist: Option<string -> bool>, iomap: map<string, Counters>,
                         prevTs: int, prevStats: map<string, Counters>, now: int): (out: map<string, seq<Metric>>)
    ensures forall d :: d in out <==> d in iomap && !Blacklisted(blacklist, d)
    ensures forall d <- out :: out[d] == DeviceEmission(d, iomap[d], prevTs, prevStats, now)
  {
    map d | d in iomap && !Blacklisted(blacklist, d) :: DeviceEmission(d, iomap[d], prevTs, prevStats, now)
  }

  /** `nowNano() / 1000000` on int64: Go's division truncates toward zero. */
  function NanoToMs(nanos: int): (ms: int)
    ensures 0 <= nanos ==> 0 <= ms && ms * 1000000 <= nanos < ms * 1000000 + 1000000
    ensures nanos < 0 ==> ms <= 0 && ms * 1000000 - 1000000 < nanos <= ms * 1000000
  {
    if 0 <= nanos then nanos / 1000000 else -((-nanos) / 1000000)
  }

  // ---------------------------------------------------------------------
  // The check
  // ---------------------------------------------------------------------

  /** The outcome of one run: the error if any, what reached the sink, and
      whether the sink was told to commit. */
  datatype RunResult = RunResult(err: Option<string>, emitted: map<string, seq<Metric>>, committed: bool)

  class IOCheck {
    /** The compiled device-exclusion pattern, if one was configured, as its match predicate. */
    const blacklist: Option<string -> bool>
    /** Timestamp in milliseconds of the last successful cycle; 0 means never. */
    var ts: int
    /** The counters of the last successful cycle, by device. */
    var stats: map<string, Counters>

    constructor (blacklist: Option<string -> bool>)
      ensures this.blacklist == blacklist && ts == 0 && stats == map[]
    {
      this.blacklist := blacklist;
      ts := 0;
      stats := map[];
    }

    /** What one device that passed the blacklist emits, against the stored
        history: each early return is one of the source's per-device skips. */
    method EmitDevice(device: string, ioStats: Counters, now: int) returns (emitted: seq<Metric>)
      ensures emitted == DeviceEmission(device, ioStats, ts, stats, now)
    {
      var tag := Tag(device, ioStats);
      emitted := RateMetrics(ioStats, tag);
      if ts == 0 {
        return;
      }
      if device !in stats {
        return;
      }
      var lastIOStats := stats[device];
      var delta := (now - ts) as real;
      if delta == 0.0 {
        return;
      }
      emitted := emitted + GaugeMetrics(Derive(CounterDeltas(ioStats, lastIOStats), delta), tag);
    }

    /** The device loop of one cycle, against the stored history. */
    method EmitDevices(iomap: map<string, Counters>, now: int) returns (out: map<string, seq<Metric>>)
      ensures out == CycleEmission(blacklist, iomap, ts, stats, now)
    {
      out := map[];
      var remaining := iomap.Keys;
      while remaining != {}
        invariant remaining <= iomap.Keys
        invariant forall d :: d in out <==> d in iomap && d !in remaining && !Blacklisted(blacklist, d)
        invariant forall d {:trigger out[d]} :: d in out ==> out[d] == DeviceEmission(d, iomap[d], ts, stats, now)
        decreases remaining
      {
        var device :| device in remaining;
        remaining := remaining - {device};
        if Blacklisted(blacklist, device) {
          continue;
        }
        var emitted := EmitDevice(device, iomap[device], now);
        out := out[device := emitted];
      }
    }

    /** One sampling cycle. A missing sender or a failed counter fetch ends
        the cycle before anything is emitted and leaves the history alone;
        otherwise the history is replaced wholesale by this sample. */
    method NixIO(senderErr: Option<string>, fetched: Result<map<string, Counters>, string>, nowNano: int)
      returns (r: Result<map<string, seq<Metric>>, string>)
      modifies this
      ensures senderErr.Some? ==>
        r == Failure(senderErr.value) && ts == old(ts) && stats == old(stats)
      ensures senderErr.None? && fetched.Failure? ==>
        r == Failure(fetched.error) && ts == old(ts) && stats == old(stats)
      ensures senderErr.None? && fetched.Success? ==>
        && r == Success(CycleEmission(blacklist, fetched.value, old(ts), old(stats), NanoToMs(nowNano)))
        && stats == fetched.value
        && ts == NanoToMs(nowNano)
    {
      if senderErr.Some? {
        return Failure(senderErr.value);
      }
      if fetched.Failure? {
        return Failure(fetched.error);
      }
      var iomap := fetched.value;
      var now := NanoToMs(nowNano);
      var emitted := EmitDevices(iomap, now);
      stats := iomap;
      ts := now;
      r := Success(emitted);
    }

    /** Runs one cycle and commits what it emitted only when it succeeded. */
    method Run(senderErr: Option<string>, fetched: Result<map<string, Counters>, string>, nowNano: int)
      returns (o: RunResult)
      modifies this
      ensures o.committed <==> o.err.None?
      ensures o.err.Some? ==> o.emitted == map[] && ts == old(ts) && stats == old(stats)
      ensures senderErr.Some? ==> o.err == senderErr
      ensures senderErr.None? && fetched.Failure? ==> o.err == Some(fetched.error)
      ensures senderErr.None? && fetched.Success? ==>
        && o == RunResult(None, CycleEmission(blacklist, fetched.value, old(ts), old(stats), NanoToMs(nowNano)), true)
        && stats == fetched.value
        && ts == NanoToMs(nowNano)
    {
      if senderErr.Some? {
        return RunResult(senderErr, map[], false);
      }
      var r := NixIO(senderErr, fetched, nowNano);
      if r.Success? {
        o := RunResult(None, r.value, true);
      } else {
        o := RunResult(Some(r.error), map[], false);
      }
    }
  }

  // ---------------------------------------------------------------------
  // Properties across devices and cycles
  // ---------------------------------------------------------------------

  /** On the first cycle ever every reported device gets its four rates and nothing else. */
  lemma ColdStartRatesOnly(blacklist: Option<string -> bool>, iomap: map<string, Counters>,
                           prevStats: map<string, Counters>, now: int, device: string)
    requires device in iomap && !Blacklisted(blacklist, device)
    ensures var out := CycleEmission(blacklist, iomap, 0, prevStats, now);
            device in out && out[device] == RateMetrics(iomap[device], Tag(device, iomap[device]))
  {
    var out := CycleEmission(blacklist, iomap, 0, prevStats, now);
    assert out[device][..4] == out[device];
  }

  /** A device that appears for the first time (hot-plugged) gets gauges one
      cycle late: after a successful cycle at `now1` that stored `io1`, a
      later cycle at a different time gives it the nine gauges exactly when it
      was in `io1`. */
  lemma HotplugDelaysGauges(blacklist: Option<string -> bool>, io1: map<string, Counters>, now1: int,
                            io2: map<string, Counters>, now2: int, device: string)
    requires now1 != 0 && now2 != now1
    requires device in io2 && !Blacklisted(blacklist, device)
    ensures var out := CycleEmission(blacklist, io2, now1, io1, now2);
            device in out && (|out[device]| == 13 <==> device in io1)
  {
  }

  /** A worked example: two samples one second apart, between which 1 MiB
      more was read in 50 reads taking 200 ms in all, give 1024.00 kB/s read
      and a 4.00 ms read await. */
  lemma ReadExample()
    ensures var last := Counters(100, 0, 50, 0, 1048576, 524288, 200, 100, 300, 0, "");
            var cur := Counters(150, 0, 70, 0, 2097152, 1048576, 400, 180, 500, 0, "");
            var g := Derive(CounterDeltas(cur, last), 1000.0);
            Round(g.rkbs) == 1024.0 && Round(g.rAwait) == 4.0
  {
    var last := Counters(100, 0, 50, 0, 1048576, 524288, 200, 100, 300, 0, "");
    var cur := Counters(150, 0, 70, 0, 2097152, 1048576, 400, 180, 500, 0, "");
    var g := Derive(CounterDeltas(cur, last), 1000.0);
    assert g.rkbs == 1024.0;
    assert g.rAwait == 4.0;
    RoundHundredths(102400);
    RoundHundredths(400);
  }
}
