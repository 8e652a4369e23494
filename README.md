# Unix disk I/O check, modelled in Dafny

This project models the Unix implementation of the agent's `io` core check
(`pkg/collector/corechecks/system/iostats_nix.go`). On every run the check:

- reads the cumulative block-I/O counters of every disk;
- skips the devices whose name matches the configured blacklist pattern;
- tags each remaining device with its label, or with its name when it has no label;
- sends four raw counters as rates.

When a previous sample exists, contains the device and was taken at a
different millisecond, the check also derives nine iostat-style gauges from
the two samples, each rounded to hundredths:

- read/write kB/s;
- average request size;
- await and read/write await;
- average queue size;
- service time;
- utilisation.

At the end of a successful cycle the whole sample and its timestamp replace
the stored history. `Run` commits the sender only when the cycle succeeded.

The model has two files:

- `wrappers.dfy` holds `Option` and `Result`.
- `iostats.dfy` is module `IOStats`. It holds:
  - uint64 arithmetic (`u64`, `Sub64`, `Add64`, `WrappedSum`), written out modulo 2^64;
  - the counter and metric datatypes;
  - rounding;
  - the derived-value formulas (`CounterDeltas` turns counters into deltas; `Derive` computes the gauges from them);
  - per-device and per-cycle emission as functions (`DeviceEmission`, `CycleEmission`);
  - the stateful check as class `IOCheck`. Its fields `ts` and `stats` are updated by `NixIO`. `EmitDevices` is the device loop, proved against `CycleEmission`.

What a cycle sends to the metrics sink is represented as a map from device name
to that device's metrics, in the order they are sent. This is because Go
iterates over the counters map in no fixed order.

Two details of the formulas, as the code computes them:
- The numerator of `avg_rq_sz`, `rb - lrb + wb - lwb`
  (`iostats_nix.go:122`), is evaluated in uint64. The sum of the two byte
  deltas therefore wraps modulo 2^64 before the integer division by
  `SectorSize`. The same holds for the summed read and write times in the
  numerator of `await` (`iostats_nix.go:123`).
- `avg_q_sz` divides the weighted-I/O delta by `kB`, like the two
  throughputs do (`iostats_nix.go:105`).

## Model

| member | source | states |
|---|---|---|
| IOStats.Sub64 | pkg/collector/corechecks/system/iostats_nix.go:103-123 | uint64 subtraction of two counters: the true difference when the counter did not decrease, otherwise the difference plus 2^64 |
| IOStats.Add64 | pkg/collector/corechecks/system/iostats_nix.go:122-123 | uint64 addition inside the summed deltas: the true sum below 2^64, otherwise the sum minus 2^64 |
| IOStats.FloatDelta | pkg/collector/corechecks/system/iostats_nix.go:103-115 | a widened counter delta is in [0, 2^64), equals the plain difference when the counter grew, and the wrapped difference when it went backwards |
| IOStats.WrappedSum | pkg/collector/corechecks/system/iostats_nix.go:122-123 | `c1 - l1 + c2 - l2` evaluated left to right in uint64 equals the sum of the two wrapped deltas, reduced modulo 2^64 |
| IOStats.SectorsMoved | pkg/collector/corechecks/system/iostats_nix.go:122 | the sector count is the floor of the wrapped byte total divided by 512 |
| IOStats.WaitTime | pkg/collector/corechecks/system/iostats_nix.go:123 | the read-plus-write time is the sum of the two wrapped time deltas modulo 2^64 |
| IOStats.CounterDeltas | pkg/collector/corechecks/system/iostats_nix.go:103-123 | every delta fed to the formulas is non-negative; when no counter went backwards and no sum overflowed, each delta equals the plain difference of the counters |
| IOStats.Round | pkg/collector/corechecks/system/iostats_nix.go:45-48 | the result is a whole number of hundredths within 0.005 of the input and keeps the input's sign |
| IOStats.HalfUp | pkg/collector/corechecks/system/iostats_nix.go:47 | the integer chosen is the nearest one, with halves going up |
| IOStats.RoundHundredths | pkg/collector/corechecks/system/iostats_nix.go:45-48 | a value that is already in hundredths is returned unchanged |
| IOStats.RoundIdempotent | pkg/collector/corechecks/system/iostats_nix.go:45-48 | rounding a rounded value changes nothing |
| IOStats.PerOp | pkg/collector/corechecks/system/iostats_nix.go:107-124 | a guarded per-operation average: 0 when there were no operations, otherwise the value times the operation count gives back the total; non-negative for non-negative inputs |
| IOStats.PerKBSecond | pkg/collector/corechecks/system/iostats_nix.go:103-105 | the result times 1024 times the elapsed seconds gives back the delta; non-negative when time moved forward |
| IOStats.Derive | pkg/collector/corechecks/system/iostats_nix.go:102-134 | the nine derived values of a device; when time moved forward none is negative, because every delta is a uint64 result (the formulas themselves are stated by the three lemmas below) |
| IOStats.DeriveThroughput | pkg/collector/corechecks/system/iostats_nix.go:102-105 | rkb_s, wkb_s and avg_q_sz, multiplied by 1024 and by the elapsed seconds, give back the read-byte, write-byte and weighted-I/O deltas |
| IOStats.DeriveAwaits | pkg/collector/corechecks/system/iostats_nix.go:107-116 | r_await (w_await) is 0 when no read (write) completed, otherwise it is the read (write) time per read (write) |
| IOStats.DerivePerOperation | pkg/collector/corechecks/system/iostats_nix.go:118-134 | with no completed operation the request size, await and service time are 0; otherwise they are sectors, wait time and busy time per operation; utilisation times the elapsed milliseconds is the busy time times 1000 |
| IOStats.Throughput | pkg/collector/corechecks/system/iostats_nix.go:126-129 | operations per second over an interval in hundredths of a second; zero exactly when no operation completed |
| IOStats.Utilization | pkg/collector/corechecks/system/iostats_nix.go:128-130 | the busy time over the interval, as ten times a percentage; non-negative when time moved forward |
| IOStats.ServiceTime | pkg/collector/corechecks/system/iostats_nix.go:126-134 | util / tput, guarded by tput != 0, is 0 without operations and otherwise the busy time per operation |
| IOStats.BusyPerOp | pkg/collector/corechecks/system/iostats_nix.go:128-133 | dividing utilisation by throughput cancels the interval, leaving busy time per operation |
| IOStats.Tag | pkg/collector/corechecks/system/iostats_nix.go:74-81 | the tag is `device:` followed by the label when one is set, else by the device name |
| IOStats.RateMetrics | pkg/collector/corechecks/system/iostats_nix.go:83-86 | the four rates r_s, w_s, rrqm_s, wrqm_s in that order carry the raw read, write, merged-read and merged-write counts and the device tag |
| IOStats.GaugeMetrics | pkg/collector/corechecks/system/iostats_nix.go:136-148 | the nine gauges in emission order, each tagged with the device and carrying the rounded value of the derived figure of the same name; utilisation is reported divided by 10 |
| IOStats.GaugesInHundredths | pkg/collector/corechecks/system/iostats_nix.go:136-148 | every gauge value sent is a whole number of hundredths |
| IOStats.Blacklisted | pkg/collector/corechecks/system/iostats_nix.go:70 | with no pattern configured no device is skipped; with one, a device is skipped exactly when the pattern matches its name |
| IOStats.HasBaseline | pkg/collector/corechecks/system/iostats_nix.go:88-100 | a device gets no gauges when there was no earlier cycle, when it was not in the stored sample, or when no time has passed; otherwise it has a baseline |
| IOStats.DeviceEmission | pkg/collector/corechecks/system/iostats_nix.go:83-148 | a device always sends its four rates first; it sends 13 metrics exactly when it has a baseline (earlier cycle, device present in it, time moved), and then the last nine are the gauges derived from the two samples |
| IOStats.DeviceMetricNames | pkg/collector/corechecks/system/iostats_nix.go:83-148 | the metric names a device sends are the four rate names, followed by the nine gauge names exactly when it has a baseline |
| IOStats.CycleEmission | pkg/collector/corechecks/system/iostats_nix.go:69-150 | a device sends metrics exactly when it was reported and is not blacklisted, and what it sends is its per-device emission |
| IOStats.NanoToMs | pkg/collector/corechecks/system/iostats_nix.go:63-64 | nanoseconds to milliseconds with int64 division, which truncates toward zero on either sign |
| IOStats.IOCheck.constructor | pkg/collector/corechecks/system/iostats_nix.go:31-37 | a new check has no history: timestamp 0 and no stored counters |
| IOStats.IOCheck.EmitDevice | pkg/collector/corechecks/system/iostats_nix.go:74-148 | the per-device body, with its early skips for no previous cycle, a new device and zero elapsed time, sends exactly the device's emission against the stored history |
| IOStats.IOCheck.EmitDevices | pkg/collector/corechecks/system/iostats_nix.go:68-150 | the device loop, in any iteration order, sends exactly `CycleEmission` of the reported devices against the stored history |
| IOStats.IOCheck.NixIO | pkg/collector/corechecks/system/iostats_nix.go:50-155 | a sender or fetch error is returned with the history unchanged; otherwise the cycle's emission is computed against the old history, and the history becomes this sample at this millisecond |
| IOStats.IOCheck.Run | pkg/collector/corechecks/system/iostats_nix.go:157-169 | the sink is committed exactly when there was no error; on error nothing is sent and the history is unchanged; on success the result is the cycle's emission and the history is updated |
| IOStats.ColdStartRatesOnly | pkg/collector/corechecks/system/iostats_nix.go:88-90 | on the first cycle every non-blacklisted device sends exactly its four rates |
| IOStats.HotplugDelaysGauges | pkg/collector/corechecks/system/iostats_nix.go:91-95 | after a cycle at a nonzero time, a later cycle at a different time gives a device gauges exactly when it was in the stored sample |
| IOStats.ReadExample | pkg/collector/corechecks/system/iostats_nix.go:102-116 | one second apart, 1 MiB more read in 50 reads taking 200 ms gives rkb_s 1024.00 and r_await 4.00 |

## Left out

- The metrics sender (`aggregator.GetSender`, `Rate`, `Gauge`, `Commit`) is not modelled as code. Failure to obtain a sender is the parameter `senderErr`. What would be sent is returned as a map, and the commit as a flag.
- The counter source (`disk.IOCounters` from gopsutil) and the clock (`time.Now().UnixNano()`) are parameters: `fetched` and `nowNano`.
- Regular-expression matching of the blacklist is a predicate on device names; compiling the pattern is part of configuration.
- `Configure`, `commonConfigure`, `CheckBase` and the check's ID are not part of this model. Neither are logging and the `bytes.Buffer` used to build the tag; the model builds the same string directly.
- float64 arithmetic is modelled with exact reals. The model therefore does not capture rounding error, the precision lost when a uint64 above 2^53 becomes a float64, or the binary representation that `math.Round(val*100)/100` produces.
- IOStats.Round: the model rounds the exact value `val*100` half away from zero, as `math.Round` does. It does not model float64 overflow or NaN.
- `kB` and `SectorSize` are defined outside this file and are not part of this model; the values used are 1024 and 512.
- IOStats.NanoToMs: int64 overflow of the clock is not modelled; neither is the int64 subtraction `now - c.ts`, which the model takes in unbounded integers.
- The unused fields of `disk.IOCountersStat` (`IopsInProgress`, `Name`, `SerialNumber`) are not modelled.
- The interleaving of metrics of different devices on the sink is not modelled; only each device's own order is kept.
