/** The kernel module's single `monitor_state` record and the handlers that
    read and update it. Each handler is one atomic step: the spinlock and the
    mutex that serialise them in the kernel are not modelled. */
module HealthMonitor {
  import opened DecimalText
  import opened Control
  import Snapshot

  /** `EINVAL`; handlers return its negation on a rejected payload. */
  const EINVAL: int := 22
  /** Size of the stack buffer the device write copies the payload into; one
      byte is kept for the terminating NUL. */
  const WRITE_BUFFER_SIZE: nat := 256

  /** The file position (`*offset`) that the device read advances. */
  class File {
    var pos: nat

    constructor (pos: nat)
      ensures this.pos == pos
    {
      this.pos := pos;
    }
  }

  class Monitor {
    var lastCheckTime: int
    var level: nat
    var factor: nat
    var alerts: nat
    var ticks: nat
    var gpuTemp: nat
    var memPressure: nat

    /** The record's invariant: the level is a percentage, the factor is in
        [1, 10], and the derived metrics are those of the current level. */
    ghost predicate Valid()
      reads this
      ensures Valid() ==> 50 <= gpuTemp <= 100 && memPressure <= 66
    {
      level <= MAX_WORKLOAD_LEVEL &&
      FactorInRange(factor) &&
      gpuTemp == GpuTemp(level) &&
      memPressure == MemPressure(level)
    }

    /** The fields the device read shows, in its order. */
    function Fields(): Snapshot.Fields
      reads this
    {
      Snapshot.Fields(level, factor, alerts, gpuTemp, memPressure, ticks)
    }

    /** Module load: everything zero except a factor of 5 and a temperature
        of 50, which is what the derived metrics of level 0 are. */
    constructor ()
      ensures Valid()
      ensures level == 0 && factor == INITIAL_RESOURCE_FACTOR && alerts == 0 && ticks == 0
      ensures gpuTemp == 50 && memPressure == 0 && lastCheckTime == 0
    {
      lastCheckTime := 0;
      level := 0;
      factor := INITIAL_RESOURCE_FACTOR;
      alerts := 0;
      ticks := 0;
      gpuTemp := 50;
      memPressure := 0;
    }

    /** The deferred worker: one run of the hysteresis controller on the
        current level. Only the factor and the alert counter can change. */
    method ControlStep()
      requires Valid()
      modifies this
      ensures Valid()
      ensures Output(factor, alerts) == Step(old(level), Output(old(factor), old(alerts)))
      ensures level == old(level) && gpuTemp == old(gpuTemp) && memPressure == old(memPressure)
      ensures ticks == old(ticks) && lastCheckTime == old(lastCheckTime)
    {
      var currentLevel := level;
      var currentFactor := factor;
      if currentLevel > HIGH_WORKLOAD && currentFactor < MAX_RESOURCE_FACTOR {
        factor := factor + 1;
        if factor == MAX_RESOURCE_FACTOR {
          alerts := alerts + 1;
        }
      } else if currentLevel < LOW_WORKLOAD && currentFactor > MIN_RESOURCE_FACTOR {
        factor := factor - 1;
      }
    }

    /** The periodic timer: stamps the time, counts the tick, perturbs the
        level on every tenth tick by `draw % 20 - 10` (in unsigned
        arithmetic) and recomputes the derived metrics. `draw` is the value
        `get_random_u32()` returned and `now` the clock reading. */
    method Tick(draw: nat, now: int)
      requires Valid() && draw < U32_MODULUS
      modifies this
      ensures Valid()
      ensures ticks == old(ticks) + 1 && lastCheckTime == now
      ensures level == if ticks % PERTURB_PERIOD == 0 then Perturb(old(level), draw) else old(level)
      ensures factor == old(factor) && alerts == old(alerts)
    {
      lastCheckTime := now;
      ticks := ticks + 1;
      if ticks % PERTURB_PERIOD == 0 {
        level := Perturb(level, draw);
      }
      gpuTemp := GpuTemp(level);
      memPressure := MemPressure(level);
    }

    /** The update both write paths share once a value has parsed: cap it at
        100, store it and recompute the derived metrics. */
    method SetWorkload(value: nat)
      requires Valid()
      modifies this
      ensures Valid()
      ensures level == ClampLevel(value)
      ensures factor == old(factor) && alerts == old(alerts)
      ensures ticks == old(ticks) && lastCheckTime == old(lastCheckTime)
    {
      var newLevel := ClampLevel(value);
      level := newLevel;
      gpuTemp := GpuTemp(newLevel);
      memPressure := MemPressure(newLevel);
    }

    /** The `current_workload` attribute's store: `count` is `|buf|`. A
        payload kstrtoul rejects returns -EINVAL and changes nothing; an
        accepted one sets the level and consumes the whole payload. */
    method StoreWorkload(buf: string) returns (ret: int)
      requires Valid()
      modifies this
      ensures Valid()
      ensures ParseUnsigned(CString(buf)).None? ==> ret == -EINVAL && unchanged(this)
      ensures ParseUnsigned(CString(buf)).Some? ==>
                ret == |buf| && level == ClampLevel(ParseUnsigned(CString(buf)).value)
      ensures factor == old(factor) && alerts == old(alerts)
      ensures ticks == old(ticks) && lastCheckTime == old(lastCheckTime)
    {
      var parsed := ParseUnsigned(CString(buf));
      if parsed.None? {
        return -EINVAL;
      }
      SetWorkload(parsed.value);
      ret := |buf|;
    }

    /** The character device's write: a payload of 256 bytes or more is
        rejected before anything else; otherwise it is NUL-terminated, parsed
        and applied as the attribute store does. The file position is not
        used. */
    method Write(buf: string) returns (ret: int)
      requires Valid()
      modifies this
      ensures Valid()
      ensures |buf| > WRITE_BUFFER_SIZE - 1 ==> ret == -EINVAL && unchanged(this)
      ensures |buf| <= WRITE_BUFFER_SIZE - 1 && ParseUnsigned(CString(buf)).None? ==>
                ret == -EINVAL && unchanged(this)
      ensures |buf| <= WRITE_BUFFER_SIZE - 1 && ParseUnsigned(CString(buf)).Some? ==>
                ret == |buf| && level == ClampLevel(ParseUnsigned(CString(buf)).value)
      ensures factor == old(factor) && alerts == old(alerts)
      ensures ticks == old(ticks) && lastCheckTime == old(lastCheckTime)
    {
      if |buf| > WRITE_BUFFER_SIZE - 1 {
        return -EINVAL;
      }
      var value := ParseUnsigned(CString(buf));
      if value.None? {
        return -EINVAL;
      }
      SetWorkload(value.value);
      ret := |buf|;
    }

    /** The character device's read: formats the summary afresh and hands out
        the part of it at the file position, advancing the position by the
        number of bytes returned (`|data|`). The monitor is not changed. */
    method Read(file: File, len: nat) returns (data: string)
      modifies file
      ensures Snapshot.ReadResult(data, file.pos) ==
                Snapshot.PositionalRead(Snapshot.Render(Fields()), old(file.pos), len)
      ensures old(file.pos) >= |Snapshot.Render(Fields())| ==> data == [] && file.pos == old(file.pos)
    {
      var summary := Snapshot.Render(Fields());
      if file.pos >= |summary| {
        return [];
      }
      var count := Min(|summary| - file.pos, len);
      data := summary[file.pos..file.pos + count];
      file.pos := file.pos + count;
    }

    /** The `current_workload` attribute's show. */
    method ShowWorkload() returns (out: string)
      requires Valid()
      ensures out == ShowLine(level)
      ensures ParseUnsigned(out) == Some(level)
    {
      ParseShowLine(level);
      out := ShowLine(level);
    }

    /** The `resource_factor` attribute's show. */
    method ShowResourceFactor() returns (out: string)
      ensures out == ShowLine(factor)
    {
      out := ShowLine(factor);
    }

    /** The `critical_alerts` attribute's show. */
    method ShowAlerts() returns (out: string)
      ensures out == ShowLine(alerts)
    {
      out := ShowLine(alerts);
    }
  }

  /** Module load, then the value 85 written to the device and five runs of
      the controller: the factor saturates and exactly one alert is raised. */
  method HighLoadScenario() returns (m: Monitor)
    ensures m.Valid() && m.level == 85
    ensures m.factor == MAX_RESOURCE_FACTOR && m.alerts == 1
  {
    m := new Monitor();
    ParseDigits("85", false, false);
    assert ("" + "85" + "") == "85";
    assert CString("85") == "85";
    var ret := m.Write("85");
    assert ret == 2;
    m.ControlStep();
    m.ControlStep();
    m.ControlStep();
    m.ControlStep();
    m.ControlStep();
  }
}
