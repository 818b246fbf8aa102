/** The text the character device hands out on `read`: a six-line summary of
    the monitor's record, served through the positional-read contract. */
module Snapshot {
  import opened DecimalText
  import Control

  /** The size of the stack buffer the summary is formatted into. */
  const SUMMARY_BUFFER_SIZE: nat := 256

  /** The six fields the summary shows, in the order it shows them. */
  datatype Fields = Fields(workload: nat, factor: nat, alerts: nat,
                           gpuTemp: nat, memPressure: nat, ticks: nat)

  const WORKLOAD_LABEL := "Workload: "
  const FACTOR_LABEL := "Resource Factor: "
  const ALERTS_LABEL := "Critical Alerts: "
  const GPU_TEMP_LABEL := "Simulated GPU Temp: "
  const MEM_PRESSURE_LABEL := "Simulated Memory Pressure: "
  const TICKS_LABEL := "Timer Ticks: "

  /** One summary line: a caption, a number in decimal, and a unit and/or newline. */
  function Line(caption: string, n: nat, suffix: string): string
  {
    caption + Decimal(n) + suffix
  }

  /** The summary the read handler formats, field by field. */
  function Render(f: Fields): (r: string)
    // 113 bytes of captions, units and newlines, plus the six numbers
    ensures |r| == 113 + |Decimal(f.workload)| + |Decimal(f.factor)| + |Decimal(f.alerts)|
                       + |Decimal(f.gpuTemp)| + |Decimal(f.memPressure)| + |Decimal(f.ticks)|
    ensures r[..|WORKLOAD_LABEL|] == WORKLOAD_LABEL && r[|r| - 1] == '\n'
  {
    Line(WORKLOAD_LABEL, f.workload, "%\n") +
    (Line(FACTOR_LABEL, f.factor, "\n") +
    (Line(ALERTS_LABEL, f.alerts, "\n") +
    (Line(GPU_TEMP_LABEL, f.gpuTemp, "C\n") +
    (Line(MEM_PRESSURE_LABEL, f.memPressure, "%\n") +
     Line(TICKS_LABEL, f.ticks, "\n")))))
  }

  /** Number of leading decimal digits of `s`. */
  function DigitRun(s: string): (k: nat)
    ensures k <= |s| && IsDigits(s[..k])
    ensures k < |s| ==> !IsDigit(s[k])
  {
    if s == [] || !IsDigit(s[0]) then 0
    else
      var k := 1 + DigitRun(s[1..]);
      assert s[..k] == [s[0]] + s[1..][..k - 1];
      k
  }

  /** Reads one summary line off the front of `s`: the caption, a non-empty run
      of digits, the suffix; gives the number and what follows the line. */
  function ParseLine(caption: string, suffix: string, s: string): Option<(nat, string)>
  {
    if |s| < |caption| || s[..|caption|] != caption then None
    else
      var t := s[|caption|..];
      var k := DigitRun(t);
      var u := t[k..];
      if k == 0 || |u| < |suffix| || u[..|suffix|] != suffix then None
      else Some((DigitsValue(t[..k]), u[|suffix|..]))
  }

  /** The reader's view of a summary: the six fields back, or None if the
      text is not a summary. */
  function ParseSnapshot(s: string): Option<Fields>
  {
    var workload :- ParseLine(WORKLOAD_LABEL, "%\n", s);
    var factor :- ParseLine(FACTOR_LABEL, "\n", workload.1);
    var alerts :- ParseLine(ALERTS_LABEL, "\n", factor.1);
    var gpuTemp :- ParseLine(GPU_TEMP_LABEL, "C\n", alerts.1);
    var memPressure :- ParseLine(MEM_PRESSURE_LABEL, "%\n", gpuTemp.1);
    var ticks :- ParseLine(TICKS_LABEL, "\n", memPressure.1);
    if ticks.1 == [] then
      Some(Fields(workload.0, factor.0, alerts.0, gpuTemp.0, memPressure.0, ticks.0))
    else None
  }

  /** A digit run stops exactly where the digits stop. */
  lemma {:induction false} DigitRunOf(d: string, rest: string)
    requires IsDigits(d)
    requires rest == [] || !IsDigit(rest[0])
    ensures DigitRun(d + rest) == |d|
    decreases |d|
  {
    if d != [] {
      assert (d + rest)[1..] == d[1..] + rest;
      DigitRunOf(d[1..], rest);
    }
  }

  /** Each line reads back as the number it shows, leaving what follows it. */
  lemma LineRoundTrip(caption: string, n: nat, suffix: string, rest: string)
    requires suffix != [] && !IsDigit(suffix[0])
    ensures ParseLine(caption, suffix, Line(caption, n, suffix) + rest) == Some((n, rest))
  {
    var d := Decimal(n);
    var s := Line(caption, n, suffix) + rest;
    assert s == caption + (d + (suffix + rest));
    assert s[..|caption|] == caption;
    var t := s[|caption|..];
    assert t == d + (suffix + rest);
    DigitRunOf(d, suffix + rest);
    assert t[..|d|] == d;
    var u := t[|d|..];
    assert u == suffix + rest;
    assert u[..|suffix|] == suffix && u[|suffix|..] == rest;
    DecimalRoundTrip(n);
  }

  /** The summary is unambiguous: its six fields, in their order, can be read
      back from it. */
  lemma SnapshotRoundTrip(f: Fields)
    ensures ParseSnapshot(Render(f)) == Some(f)
  {
    var l6 := Line(TICKS_LABEL, f.ticks, "\n");
    var l5 := Line(MEM_PRESSURE_LABEL, f.memPressure, "%\n") + l6;
    var l4 := Line(GPU_TEMP_LABEL, f.gpuTemp, "C\n") + l5;
    var l3 := Line(ALERTS_LABEL, f.alerts, "\n") + l4;
    var l2 := Line(FACTOR_LABEL, f.factor, "\n") + l3;
    assert Render(f) == Line(WORKLOAD_LABEL, f.workload, "%\n") + l2;
    LineRoundTrip(WORKLOAD_LABEL, f.workload, "%\n", l2);
    LineRoundTrip(FACTOR_LABEL, f.factor, "\n", l3);
    LineRoundTrip(ALERTS_LABEL, f.alerts, "\n", l4);
    LineRoundTrip(GPU_TEMP_LABEL, f.gpuTemp, "C\n", l5);
    LineRoundTrip(MEM_PRESSURE_LABEL, f.memPressure, "%\n", l6);
    LineRoundTrip(TICKS_LABEL, f.ticks, "\n", []);
    assert l6 + [] == l6;
  }

  /** For a record that keeps the monitor's invariant and counters that an
      `atomic_t` can hold, the summary fits the 256-byte buffer with room
      for the terminating NUL, so `snprintf` never truncates it. */
  lemma SnapshotFits(f: Fields)
    requires f.workload <= Control.MAX_WORKLOAD_LEVEL
    requires Control.FactorInRange(f.factor)
    requires f.gpuTemp == Control.GpuTemp(f.workload)
    requires f.memPressure == Control.MemPressure(f.workload)
    requires f.alerts < 0x8000_0000 && f.ticks < 0x8000_0000
    ensures |Render(f)| < SUMMARY_BUFFER_SIZE
  {
    assert Pow10(2) == 100 && Pow10(3) == 1000;
    assert Pow10(10) == 10_000_000_000;
    DecimalLength(f.workload, 3);
    DecimalLength(f.factor, 2);
    DecimalLength(f.alerts, 10);
    DecimalLength(f.gpuTemp, 3);
    DecimalLength(f.memPressure, 2);
    DecimalLength(f.ticks, 10);
  }

  /** What one `read(fd, buf, len)` at file position `offset` yields. */
  datatype ReadResult = ReadResult(data: string, next: nat)

  /** The positional-read contract of the read handler: end of data at or past
      the end, otherwise the next `min(remaining, len)` bytes, and the
      position advanced past them. */
  function PositionalRead(text: string, offset: nat, len: nat): (r: ReadResult)
    ensures offset >= |text| ==> r == ReadResult([], offset)
    ensures offset < |text| ==> offset <= r.next <= |text| && r.data == text[offset..r.next]
    ensures |r.data| <= len && r.next == offset + |r.data|
    // a short read happens only at the end of the text
    ensures offset < |text| ==> |r.data| == len || r.next == |text|
  {
    if offset >= |text| then ReadResult([], offset)
    else
      var count := Control.Min(|text| - offset, len);
      ReadResult(text[offset..offset + count], offset + count)
  }

  /** Everything a reader collects by reading `len` bytes at a time from
      `offset` until a read returns nothing. */
  function ReadAll(text: string, offset: nat, len: nat): string
    requires len > 0
    decreases |text| - offset
  {
    if offset >= |text| then []
    else
      var r := PositionalRead(text, offset, len);
      r.data + ReadAll(text, r.next, len)
  }

  /** Successive reads from position 0 reproduce the whole summary, whatever
      the chunk size. */
  lemma {:induction false} ReadAllReproduces(text: string, offset: nat, len: nat)
    requires len > 0 && offset <= |text|
    ensures ReadAll(text, offset, len) == text[offset..]
    decreases |text| - offset
  {
    if offset < |text| {
      var r := PositionalRead(text, offset, len);
      ReadAllReproduces(text, r.next, len);
      assert text[offset..] == text[offset..r.next] + text[r.next..];
    }
  }
}
