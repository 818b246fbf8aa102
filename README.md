# Health monitor and resource adjuster, modelled in Dafny

This project models the sequential core of the `auto_health_monitor` kernel
module. The module keeps one record, `monitor_state`. It holds a simulated
workload level (0 to 100), two metrics derived from it (GPU temperature and
memory pressure), a resource allocation factor (1 to 10), a critical-alert
counter, a timer-tick counter and the time of the last tick. Four kinds of
handler read or change that record:

- **Controller** (the workqueue handler). It applies a hysteresis policy.
  Above level 80 the factor goes up by one. Below level 20 it goes down by
  one. Reaching factor 10 raises one critical alert.
- **Timer tick** (the hrtimer callback). It counts the tick. On every tenth
  tick it moves the level by a random amount in [-10, 9], capped at 100. It
  then recomputes `gpu_temp = 50 + level/2` and `mem_pressure = level*2/3`.
- **Level injection.** Two entry points do this: the `current_workload`
  sysfs store and the `/dev/auto_monitor` write. Both parse an unsigned
  decimal number with kstrtoul, cap it at 100 and store it with the derived
  metrics. A bad payload is rejected with -EINVAL. The device write also
  rejects a payload of 256 bytes or more.
- **Reads.** The device read formats a six-line summary and serves it under
  the positional-read contract. Three sysfs show handlers print one field
  each, followed by a newline.

Module layout:

- `decimal.dfy`, module `DecimalText`: `%lu` formatting, and kstrtoul in
  base 10 (an optional `+`, then digits, then at most one `\n`, and a value
  below 2^64). Also the C-string view of a NUL-terminated buffer.
- `control.dfy`, module `Control`: the derived metrics, the controller as
  the function `Step` on the pair (factor, alerts), and the timer's
  perturbation `Perturb`. The lemmas here cover repeated controller runs.
- `snapshot.dfy`, module `Snapshot`: the summary text `Render`, a parser
  `ParseSnapshot` that reads it back, the positional read, and reading a
  summary in chunks.
- `monitor.dfy`, module `HealthMonitor`: the class `Monitor`, one field per
  record field, with one method per handler. Each method is proved against
  the functions above. `Valid()` is the record invariant: level at most 100,
  factor in [1, 10], and derived metrics that match the level. The caller's
  file position is a `File` object whose `pos` the read advances.

The timer keeps the source's unsigned arithmetic. The level is an
`unsigned long`, so `level + draw % 20 - 10` wraps modulo 2^64 when the sum
would be negative. The cap then turns that huge value into 100, not 0, and
the `< 0` branch can never run. `Perturb` states this outright. The comment
at auto_health_monitor.c:151 and the field comment at auto_health_monitor.c:28
say the level is kept in [0, 100], but the code sends an underflow to 100.
The model follows the code.

## Model

| member | source | states |
|---|---|---|
| `DecimalText.Decimal` | auto_health_monitor.c:178 | `%lu` output is a non-empty run of decimal digits with no leading zero; zero prints as `0` alone |
| `DecimalText.DecimalRoundTrip` | auto_health_monitor.c:178 | reading the digits `%lu` wrote gives back the same number |
| `DecimalText.DecimalLength` | auto_health_monitor.c:252-259 | a number below 10^k prints in at most k digits (used for the summary size bound) |
| `DecimalText.ShowLine` | auto_health_monitor.c:171-221 | a show handler's output ends in `\n`, and what precedes it is the field's value in decimal digits, with no leading zero (zero shows as `0\n`) |
| `DecimalText.CString` | auto_health_monitor.c:299-304 | the string kstrtoul sees is the longest NUL-free prefix of the payload, and it ends at the first NUL |
| `DecimalText.ParseUnsigned` | auto_health_monitor.c:187 | an accepted payload's value fits an unsigned long and the payload starts with a digit or `+`, so empty and negative payloads are rejected (`ParseAccepts` gives the full shape) |
| `DecimalText.ParseAccepts` | auto_health_monitor.c:187 | kstrtoul accepts only one or more digits with at most a `+` in front and a `\n` behind, so payloads such as `12abc`, `+x`, `-5` or `5\n\n` are rejected. With `ParseDigits` this gives the exact set of accepted payloads: that shape, with a value below 2^64 |
| `DecimalText.ParseDigits` | auto_health_monitor.c:187 | a digit run with an optional leading `+` and trailing `\n` is accepted with the value the digits denote when that value is below 2^64, and rejected when it is 2^64 or more |
| `DecimalText.ParseDecimal` | auto_health_monitor.c:187 | kstrtoul accepts what `%lu` prints, with or without `+` and `\n`, and returns the same number |
| `DecimalText.ParseShowLine` | auto_health_monitor.c:171-207 | the `current_workload` show output, written back to the store, parses to the same level |
| `Control.GpuTemp` | auto_health_monitor.c:157 | for a level in [0, 100] the simulated temperature lies in [50, 100] |
| `Control.MemPressure` | auto_health_monitor.c:158 | the simulated memory pressure never exceeds the level, and is at most 66 for a level in [0, 100] |
| `Control.ClampLevel` | auto_health_monitor.c:189-190 | an injected value above 100 becomes 100, any other value is kept, so the result is a valid level |
| `Control.Step` | auto_health_monitor.c:110-127 | the controller keeps the factor in [1, 10] and moves it by at most one. It adds one above 80 (unless at 10) and removes one below 20 (unless at 1). Otherwise nothing changes. An alert is added exactly on the step that takes the factor to 10 |
| `Control.RunStaysInRange` | auto_health_monitor.c:112-121 | over any sequence of levels the factor stays in [1, 10], moves by at most the number of runs, and the alert count never decreases |
| `Control.HighLoadSaturates` | auto_health_monitor.c:112-119 | with the level held above 80, `10 - factor` runs or more end at factor 10 with one alert added, or none if the factor was already at 10; later runs change nothing |
| `Control.LowLoadBottomsOut` | auto_health_monitor.c:120-123 | with the level held below 20, `factor - 1` runs or more end at factor 1 with the alert count unchanged |
| `Control.StableBandHolds` | auto_health_monitor.c:124-127 | with the level in [20, 80] any number of runs leaves factor and alerts unchanged |
| `Control.HighLoadFromStart` | auto_health_monitor.c:112-119 | from the initial factor 5 and a level above 80, five or more runs give factor 10 and exactly one new alert |
| `Control.LowLoadFromStart` | auto_health_monitor.c:120-123 | from the initial factor 5 and a level below 20, four or more runs give factor 1 |
| `Control.Perturb` | auto_health_monitor.c:148-154 | the new level is at most 100. It is `min(level + draw%20 - 10, 100)` when that sum is non-negative, and exactly 100 when the unsigned subtraction wraps |
| `Snapshot.Render` | auto_health_monitor.c:252-259 | the summary starts with the `Workload: ` caption and ends in a newline. Its length is 113 bytes of captions, units and newlines plus the decimal digits of the six fields (`SnapshotRoundTrip` and `SnapshotFits` state its order and size) |
| `Snapshot.LineRoundTrip` | auto_health_monitor.c:252-253 | one summary line reads back as its label and number, leaving what follows it |
| `Snapshot.SnapshotRoundTrip` | auto_health_monitor.c:252-259 | the summary lists workload, resource factor, critical alerts, GPU temp, memory pressure and timer ticks, under their labels and in that order, so the six values can be recovered from it |
| `Snapshot.SnapshotFits` | auto_health_monitor.c:240-259 | for a valid record with counters below 2^31, the summary is shorter than the 256-byte buffer, so `snprintf` does not truncate it |
| `Snapshot.PositionalRead` | auto_health_monitor.c:266-282 | at or past the end a read returns nothing and leaves the position. Otherwise it returns the text from the position, at most `len` bytes and fewer only at the end, and advances the position by the count |
| `Snapshot.ReadAllReproduces` | auto_health_monitor.c:266-282 | successive reads of any positive size, starting at position 0, return the whole summary |
| `HealthMonitor.Monitor.Valid` | auto_health_monitor.c:28-33 | the record invariant: level at most 100, factor in [1, 10], and temperature and pressure those of the current level (auto_health_monitor.c:157-158), hence in [50, 100] and at most 66. The constructor establishes it and every handler keeps it |
| `HealthMonitor.Monitor.constructor` | auto_health_monitor.c:336-342 | the initial record is level 0, factor 5, no alerts, no ticks, temperature 50 and pressure 0, and it satisfies the invariant |
| `HealthMonitor.Monitor.ControlStep` | auto_health_monitor.c:95-130 | the new factor and alert count are `Step` of the old level, factor and alerts; level, derived metrics, ticks and time are untouched; the invariant is kept |
| `HealthMonitor.Monitor.Tick` | auto_health_monitor.c:133-168 | ticks go up by exactly one and the time is stamped. The level changes only when the new tick count is a multiple of 10, and then becomes `Perturb` of the old level. Factor and alerts are untouched and the invariant is re-established |
| `HealthMonitor.Monitor.SetWorkload` | auto_health_monitor.c:189-198 | the level becomes the capped value and the derived metrics follow it; nothing else changes |
| `HealthMonitor.Monitor.StoreWorkload` | auto_health_monitor.c:181-207 | a payload kstrtoul rejects returns -EINVAL and changes nothing. Otherwise the level becomes `min(value, 100)` and the whole count is returned |
| `HealthMonitor.Monitor.Write` | auto_health_monitor.c:285-325 | a payload over 255 bytes, or one kstrtoul rejects, returns -EINVAL and changes nothing. Otherwise the level becomes `min(value, 100)` and the payload length is returned |
| `HealthMonitor.Monitor.Read` | auto_health_monitor.c:238-283 | returns the positional read of the freshly formatted summary at the file position and advances the position by the count. At or past the end it returns nothing and leaves the position |
| `HealthMonitor.Monitor.ShowWorkload` | auto_health_monitor.c:171-179 | prints the level in decimal and a newline, and the store handler would parse it back to the same level |
| `HealthMonitor.Monitor.ShowResourceFactor` | auto_health_monitor.c:209-216 | prints the resource factor in decimal and a newline |
| `HealthMonitor.Monitor.ShowAlerts` | auto_health_monitor.c:218-221 | prints the alert count in decimal and a newline |
| `HealthMonitor.HighLoadScenario` | auto_health_monitor.c:112-119 | after module load, writing `85` to the device and running the controller five times leaves factor 10 and exactly one alert |

## Left out

- Locking: the spinlock, the mutex and their acquisition order. Each handler is one atomic step.
- Scheduling: arming and forwarding the hrtimer, and the workqueue's `schedule_work` after a tick or an injection. The controller is the directly callable `ControlStep`.
- Module init/exit plumbing: the char device, class, device node, sysfs group and workqueue, with their reverse-order unwinding. Also the open/release handlers and their module reference counting.
- Foreign calls: the `copy_to_user`/`copy_from_user` -EFAULT paths, `printk` logging, and `ktime_get` and `get_random_u32`. The last two become the parameters `now` and `draw` of `Tick`.
- kstrtoul's own code is not in this repository. `ParseUnsigned` models its documented base-10 behaviour. Its -ERANGE on overflow is folded into the same rejection, because the handlers return -EINVAL for any negative result.
- Counter overflow: `critical_alerts` and `timer_ticks` are `atomic_t` (32-bit int) in the source and unbounded naturals here.
- `snprintf` truncation: the device read uses the whole formatted summary. `SnapshotFits` shows that truncation cannot happen while both counters stay below 2^31.
- `Control.Perturb`: requires a level in [0, 100], which the record invariant guarantees. It does not describe the wrap for a level near 2^64, which cannot occur.
- Sysfs's own limit on the size of a store payload; it is enforced outside the module.
- The user-space menu client, which only forwards menu choices to the device and the sysfs files.
