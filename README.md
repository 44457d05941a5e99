# pi-monitor: the sampling core, in Dafny

A model of the logic inside `app.py` of a small Flask host monitor. On each request to `/stats`, the
server reads the host's metrics and turns the cumulative network byte counters into upload and
download rates. It measures those rates against the previous request's sample, which it keeps in the
globals `last_net` and `last_time`. It then returns one JSON snapshot. The page's embedded script
colours each metric, derives a status (Healthy, Under Load, Critical) and keeps a 31-point chart
history in seven parallel arrays.

Modules, one per component:

- `Outcomes` (`outcomes.dfy`): `Option`, and a `Result` that carries the Python exception a call
  lets escape (`ZeroDivisionError`, `IndexError`, `OSError`).
- `Rates` (`rates.dfy`): the rate arithmetic and the class `RateSampler`. Its fields `prevSent`,
  `prevRecv` and `prevTime` are the globals; `Sample` reads them, computes both rates and only then
  overwrites them. A ghost `history` records every stored reading, so a lemma can show that the
  reported rates account for every byte counted since startup.
- `Temperature` (`temperature.dfy`): the vcgencmd → `cpu_thermal` → `None` chain, its restatement
  as an ordered list of strategies, and the `or 0` default.
- `SecondaryDisks` (`secondary_disks.dfy`): the scan of `/mnt` as a loop over the entries, proved
  equal to a filter function, with the filter characterised as an order-preserving subsequence.
- `Stats` (`stats.dfy`): the `/stats` handler as a method over a `RateSampler`. It states which
  failures leave the stored sample untouched, when the sample is overwritten, and what the snapshot
  holds.
- `Dashboard` (`dashboard.dfy`): `setColor`, the status indicator and the secondary-disk summary
  card of the page's script.
- `History` (`history.dfy`): `fetchData`'s sliding window as a class with seven `seq` fields. Its
  invariant says each array is the window of its series over all fetches, so index k of every
  array comes from the same fetch.

The OS providers (psutil, `subprocess`, `os.scandir`, `os.path.exists`, `time.time`) are
parameters. `Stats.Host` bundles what they return during one request, and `SecondaryDisks.Probe`
gives the outcome of probing one `/mnt` entry.

Behaviour of the code that the model keeps as written:

- The code does not guard a zero elapsed time. `Sample` raises `ZeroDivisionError` before the
  store, so the state is left as it was. A negative elapsed time raises nothing and only flips the
  sign of the rates.
- The code does not clamp rates: a counter that goes down gives a negative rate.
- The disk scan catches only `PermissionError`. Any other `OSError` from the usage query
  propagates, and it does so after the network sample has already been overwritten.
- An empty `cpu_thermal` list raises `IndexError`, which the code does not catch.

## Model

| member | source | states |
|---|---|---|
| `Rates.KBps` | app.py:354-355 | with time moving forward the rate is non-negative exactly when the byte delta is; with time moving backward the sign flips |
| `Rates.Rate` | app.py:354-355 | the rate for a direction, times 1024 and the elapsed time, is the bytes that direction's counter moved |
| `Rates.RatesBetween` | app.py:350-355 | upload accounts for the bytes sent and download for the bytes received over the elapsed time |
| `Rates.KBpsNonNegative` | app.py:354-355 | a non-negative byte delta over a positive elapsed time gives a non-negative rate |
| `Rates.KBpsNegativeOnDrop` | app.py:354-355 | a counter that went down gives a negative rate over a positive elapsed time: no clamping |
| `Rates.KBpsDoubles` | app.py:354-355 | doubling the byte delta doubles the rate |
| `Rates.KBpsRecoversDelta` | app.py:354 | rate × 1024 × elapsed gives back the byte delta |
| `Rates.RatesNonNegative` | app.py:350-355 | time moving forward and counters not decreasing give non-negative upload and download rates |
| `Rates.TenSecondExample` | app.py:352-355 | 1000→11240 bytes sent and 2000→4048 received over 10 s give 1.0 and 0.2 KB/s |
| `Rates.MeasuredTelescopes` | app.py:354-358 | over consecutive samples, Σ rate·1024·elapsed equals the last counter minus the first |
| `Rates.RateSampler.constructor` | app.py:9-10 | the stored sample is the startup reading, which starts the history |
| `Rates.RateSampler.Sample` | app.py:350-358 | a zero elapsed time raises with the state unchanged; otherwise the rates come from the previously stored reading, and the current reading is stored once and appended to the history |
| `Rates.RateSampler.AccountsForAllBytes` | app.py:354-358 | over all calls so far, the reported rates account for the stored counter minus the startup counter |
| `Temperature.GetTemperature` | app.py:311-319 | a vcgencmd reading is returned as is; `None` exactly when vcgencmd fails and there is no `cpu_thermal` sensor; otherwise the first `cpu_thermal` reading; raises `IndexError` exactly when that sensor's list is empty |
| `Temperature.GetTemperatureIsChain` | app.py:311-319 | `get_temperature` equals trying vcgencmd and then the sensor in order, the first reading or exception deciding |
| `Temperature.CommandTakesPriority` | app.py:312-314 | a vcgencmd reading wins whatever the sensors report |
| `Temperature.TemperatureOrZero` | app.py:346 | a missing temperature is reported as 0; a present one as itself |
| `Temperature.NoSourceReportsZero` | app.py:315-319 | with no source, the chain gives no error and the reported temperature is 0 |
| `SecondaryDisks.MountPath` | app.py:325-327 | each mount path is `/mnt/` followed by the entry name |
| `SecondaryDisks.Kept` | app.py:325-333 | never more disks than entries; every entry kept when all usage queries succeed; none when none does |
| `SecondaryDisks.ScanMnt` | app.py:321-336 | raises exactly when `/mnt` exists and some usage query fails other than by permission, and then an `OSError`; a missing `/mnt` gives the empty list; otherwise the kept disks; never more disks than entries |
| `SecondaryDisks.GetSecondaryDisks` | app.py:321-336 | the scan loop returns the empty list when `/mnt` is missing, raises when a usage query fails other than by permission, and otherwise returns the kept disks in scan order |
| `SecondaryDisks.KeptElement` | app.py:329-333 | the j-th reported disk is the entry at the j-th kept position, a directory whose usage query succeeded, with its mount path and percent |
| `SecondaryDisks.KeptAtIncreasing` | app.py:325-333 | the kept positions strictly increase: the scan order is kept |
| `SecondaryDisks.KeptAtComplete` | app.py:329-333 | every directory whose usage query succeeded has its position kept |
| `SecondaryDisks.KeptIsOrderedSubsequence` | app.py:325-333 | the result is an order-preserving subsequence of the entries: exactly the directories whose usage query succeeded, each with its mount path and percent |
| `SecondaryDisks.DeniedNeverReported` | app.py:328-335 | an entry refused with PermissionError never appears in the result |
| `SecondaryDisks.MissingRootIsEmpty` | app.py:323-324 | a missing `/mnt` gives the empty list, not an error |
| `SecondaryDisks.DeniedVolumeSkipped` | app.py:325-335 | volumes A at 40%, B refused and C at 90% give exactly A then C |
| `Stats.Stats` | app.py:342-371 | a temperature failure raises with the sample untouched; a zero elapsed raises with it untouched; otherwise the current reading is stored, and the snapshot has the provider values, the defaulted temperature, both rates and the scanned disks, or the scan's error |
| `Dashboard.SetColor` | app.py:169-184 | cpu, mem, disk and temp get a band colour; net gets deepskyblue; any other type gets the default colour |
| `Dashboard.ColorBands` | app.py:171-178 | lime up to 60, orange up to 85 (75 for temp), red above |
| `Dashboard.SetColorMonotone` | app.py:169-184 | a higher value never gets a less severe colour |
| `Dashboard.StatusOf` | app.py:292-302 | Critical exactly when a colour is red; Healthy exactly when none is red or orange |
| `Dashboard.Indicator` | app.py:273-302 | Critical exactly when cpu, mem or disk is above 85 or temp is above 75; Healthy exactly when all four are at most 60 |
| `Dashboard.IndicatorIgnoresNetwork` | app.py:273-279 | the network rates do not affect the status |
| `Dashboard.IndicatorMonotone` | app.py:292-302 | raising any of the four readings never lowers the status |
| `Dashboard.MaxPercent` | app.py:196 | the result is one of the percents and no percent is larger |
| `Dashboard.SecondarySummary` | app.py:186-199 | "N/A" exactly for no disks; otherwise the colour of the fullest disk under the 60/85 bands, red exactly when some disk is above 85 |
| `History.Slide` | app.py:249-261 | the new value ends the array, the array grows by at most one, and a window of at most 31 points stays within 31 |
| `History.SlideKeepsBound` | app.py:249-261 | a window of at most 31 points stays within 31, the newest value is last, and a full window drops exactly its oldest point |
| `History.Replay` | app.py:249-261 | after n pushes onto an empty array its length is min(n, 31) |
| `History.ReplayKeepsMostRecent` | app.py:249-261 | after any run of pushes the array holds exactly the most recent 31 values, oldest first |
| `History.ReplayStep` | app.py:249-261 | pushing one more value onto the array is replaying the longer run |
| `History.SlideRecent` | app.py:249-261 | sliding the window of a run by one value gives the window of the longer run |
| `History.History.constructor` | app.py:130-131 | all seven arrays start empty |
| `History.History.DropOldest` | app.py:250-252 | every array loses its first element |
| `History.History.Append` | app.py:255-261 | every array gains the new reading at its end |
| `History.History.Record` | app.py:249-261 | each array is slid by its reading of the fetch, and the alignment invariant is kept |
| `History.History.Aligned` | app.py:249-261 | the seven arrays have the same length, min(fetches, 31) |
| `History.History.WindowsAligned` | app.py:249-261 | position k of every array holds the same fetch, one of the last 31 |

## Left out

- Flask routing, the HTML page, `render_template_string`, `jsonify` and `app.run`: transport and rendering.
- psutil, `subprocess.check_output`, `os.scandir` and `os.path.exists`: foreign OS calls, modelled only as the values they return (`Stats.Host`, `SecondaryDisks.DirEntry`).
- `SecondaryDisks.GetSecondaryDisks`: an `os.scandir("/mnt")` that raises because `/mnt` exists but cannot be listed is not modelled; the entries are always given. Only a usage query failing other than by permission (`UsageFailed`) yields the uncaught `OSError`.
- Exceptions from the psutil calls for CPU, memory, the primary disk and the network counters are not modelled; those values are always present in `Stats.Host`.
- `psutil.sensors_temperatures` itself being missing on a platform is not modelled.
- Parsing the vcgencmd output as a float: `Temperature.Vcgencmd` is either a parsed reading or a failure, and a parse failure is a failure.
- `Stats.Stats`: returns unrounded values. The handler's `round(..., 1)` on cpu, temperature and the rates (app.py:363-369) is not modelled; memory and disk are not rounded in the code either.
- `Dashboard.Indicator`: the page classifies the values as it receives them in the JSON, that is after `round(..., 1)`. The dashboard members (`Dashboard.Indicator`, `History.History.Record`) take a `Stats.Snapshot`; applied to the unrounded snapshot of `Stats.Stats` they can differ from the page at a band edge (a temperature of 75.04 is `Critical` unrounded, while the page sees 75.0, which is Under Load). `Dashboard.Indicator` is the status that block would compute on a fetch that reaches it. On a fetch where a mount appears after the secondary chart was built, `secondaryDiskChart.data.datasets[i]` is undefined (app.py:238). The resulting TypeError ends `fetchData` before the status block (app.py:292-302) runs, so the page keeps its previous status, although the history pushes (app.py:255-261) have already happened.
- `Stats.Stats`: the response `timestamp` (a second wall-clock read) is not part of the snapshot.
- Floating point in general: times and rates are Dafny `real`, so the rate is exact.
- The blocking `cpu_percent(interval=0.5)`: its result is a parameter.
- Concurrent requests racing on `last_net`/`last_time`: calls are sequential in the model.
- Chart.js construction, DOM writes, `setInterval` and the time labels' text: labels are opaque strings passed to `History.History.Record`.
- The secondary-disk chart's own per-mount history and the summary text (the `mount: percent%` list joined with ` | `): UI bookkeeping and number formatting.
