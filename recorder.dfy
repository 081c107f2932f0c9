/** The integer logic of the recorder firmware (src/main.c): the daily
    start/stop schedule, the sizes in the WAV header, the gain shift derived
    from the oversampling factor, and the ring of SRAM buffers that the DMA
    interrupt fills and the record loop drains. */
module Recorder {
  import opened Machine

  const SECONDS_IN_MINUTE := 60
  const SECONDS_IN_HOUR := 60 * SECONDS_IN_MINUTE
  const SECONDS_IN_DAY := 24 * SECONDS_IN_HOUR

  const NUMBER_OF_BUFFERS := 8
  const NUMBER_OF_SAMPLES_IN_DMA_TRANSFER := 512
  const NUMBER_OF_BUFFERS_TO_SKIP := 1
  const MAX_START_STOP_PERIODS := 5

  /** The packed WAV header: chunk headers, the format block, the LIST/INFO
      block with its comment and artist fields, and the data chunk header. */
  const RIFF_ID_LENGTH := 4
  const LENGTH_OF_ARTIST := 32
  const LENGTH_OF_COMMENT := 256
  const CHUNK_SIZE := RIFF_ID_LENGTH + 4
  const WAV_FORMAT_SIZE := 2 + 2 + 4 + 4 + 2 + 2
  const WAV_HEADER_SIZE := CHUNK_SIZE + RIFF_ID_LENGTH + CHUNK_SIZE + WAV_FORMAT_SIZE
                           + CHUNK_SIZE + RIFF_ID_LENGTH + (CHUNK_SIZE + LENGTH_OF_COMMENT)
                           + (CHUNK_SIZE + LENGTH_OF_ARTIST) + CHUNK_SIZE
  /** `sizeof(wavHeader) >> 1`: the samples the header overwrites at the start of the file. */
  const HEADER_SAMPLES := WAV_HEADER_SIZE / 2
  const BYTES_PER_CAPTURE := 2

  /** The latest second of a day a period can name: 60 times the largest uint16_t. */
  const MAX_PERIOD_SECONDS := 60 * 0xFFFF

  // ---------------------------------------------------------------------
  // Configuration (the part of configSettings_t the integer logic reads)
  // ---------------------------------------------------------------------

  datatype Period = Period(startMinutes: u16, stopMinutes: u16)

  datatype Config = Config(
    oversampleRate: u8,
    sampleRate: u32,
    sampleRateDivider: u8,
    sleepDuration: u16,
    recordDuration: u16,
    activeStartStopPeriods: u8,
    startStopPeriods: seq<Period>)

  /** A configuration always carries MAX_START_STOP_PERIODS period slots. */
  type Settings = c: Config | |c.startStopPeriods| == 5 witness DEFAULT_SETTINGS

  /** The factory configuration copied in when the backup domain is blank. */
  const DEFAULT_SETTINGS: Config := Config(
    1, 384000, 8, 0, 60, 0,
    [Period(60, 120), Period(300, 420), Period(540, 600), Period(720, 780), Period(900, 960)])

  function StartSeconds(p: Period): (s: nat)
    ensures s <= MAX_PERIOD_SECONDS
  {
    60 * p.startMinutes
  }

  function StopSeconds(p: Period): (s: nat)
    ensures s <= MAX_PERIOD_SECONDS
  {
    60 * p.stopMinutes
  }

  /** The length of one record-then-sleep cycle, in seconds. */
  function Cycle(c: Settings): nat
  {
    c.recordDuration + c.sleepDuration
  }

  /** The configuration after the period count is clamped to the slots that exist. */
  function Clamped(c: Settings): (r: Settings)
    ensures r.activeStartStopPeriods <= MAX_START_STOP_PERIODS
    ensures c.activeStartStopPeriods <= MAX_START_STOP_PERIODS ==> r == c
    ensures c.activeStartStopPeriods > MAX_START_STOP_PERIODS ==> r.activeStartStopPeriods == MAX_START_STOP_PERIODS
    ensures r.(activeStartStopPeriods := c.activeStartStopPeriods) == c
  {
    if c.activeStartStopPeriods > 5 then c.(activeStartStopPeriods := 5) else c
  }

  // ---------------------------------------------------------------------
  // scheduleRecording
  // ---------------------------------------------------------------------

  /** When the next recording starts (seconds since the epoch) and how long it lasts. */
  datatype Schedule = Schedule(next: u32, duration: u32)

  /** What one period of the scan decides: a recording, look at the next
      period, or a division by a zero-length cycle (undefined in C). */
  datatype Outcome = Scheduled(s: Schedule) | NextPeriod | Undefined

  /** How many whole cycles after a period's start the first cycle boundary
      strictly after `offset` seconds lies. */
  function CyclesAfter(offset: nat, cycle: nat): (k: nat)
    requires cycle > 0
    ensures k >= 1
    ensures (k - 1) * cycle <= offset < k * cycle <= offset + cycle
  {
    var x := offset + cycle;
    var q := x / cycle;
    assert x == q * cycle + x % cycle;
    assert (q - 1) * cycle == q * cycle - cycle;
    q
  }

  /** The scan's step for period i, with the time of day cs. Every uint32_t
      sum and difference wraps as in C. */
  function Visit(c: Settings, t: u32, cs: nat, i: nat): (r: Outcome)
    requires i < 5 && cs < SECONDS_IN_DAY
    ensures r.Scheduled? ==> r.s.duration <= c.recordDuration
    ensures r.Undefined? ==> Cycle(c) == 0
  {
    var p := c.startStopPeriods[i];
    var start := StartSeconds(p);
    var stop := StopSeconds(p);
    var cycle := Cycle(c);
    if cs < start then
      Scheduled(Schedule(Add32(t, start - cs), Min(c.recordDuration, Sub32(stop, start))))
    else if cs < stop then
      if cycle == 0 then Undefined
      else
        var cycles := CyclesAfter(cs - start, cycle);
        var fromStart := cycles * cycle;
        if fromStart < stop - start then
          Scheduled(Schedule(Add32(Add32(t, Sub32(start, cs)), fromStart),
                             Min(c.recordDuration, stop - start - fromStart)))
        else NextPeriod
    else NextPeriod
  }

  /** No period is left today: the first period of tomorrow. */
  function Tomorrow(c: Settings, t: u32, cs: nat): (r: Schedule)
    requires cs < SECONDS_IN_DAY
    ensures r.duration <= c.recordDuration
  {
    var p := c.startStopPeriods[0];
    var start := StartSeconds(p);
    var stop := StopSeconds(p);
    Schedule(Add32(Add32(t, SECONDS_IN_DAY - cs), start), Min(c.recordDuration, Sub32(stop, start)))
  }

  /** The scan over the active periods from period i on. */
  function Scan(c: Settings, t: u32, cs: nat, i: nat): (r: Outcome)
    requires c.activeStartStopPeriods <= 5 && cs < SECONDS_IN_DAY
    ensures !r.NextPeriod?
    ensures r.Scheduled? ==> r.s.duration <= c.recordDuration
    ensures r.Undefined? ==> Cycle(c) == 0
    decreases c.activeStartStopPeriods - i
  {
    if i >= c.activeStartStopPeriods then Scheduled(Tomorrow(c, t, cs))
    else
      var o := Visit(c, t, cs, i);
      if o.NextPeriod? then Scan(c, t, cs, i + 1) else o
  }

  /** The schedule scheduleRecording stores for the current time t, or None
      when it would divide by a zero-length cycle. */
  function Plan(c: Settings, t: u32): (r: Option<Schedule>)
    ensures c.activeStartStopPeriods == 0 ==> r == Some(Schedule(UINT32_MAX, c.recordDuration))
    ensures r.Some? ==> r.value.duration <= c.recordDuration
    ensures r.None? ==> c.activeStartStopPeriods > 0 && Cycle(c) == 0
  {
    var k := Clamped(c);
    if k.activeStartStopPeriods == 0 then Some(Schedule(UINT32_MAX, k.recordDuration))
    else
      var o := Scan(k, t, t % SECONDS_IN_DAY, 0);
      if o.Scheduled? then Some(o.s) else None
  }

  /** The current time is far enough from the uint32_t limit that no sum in
      the scan wraps. */
  predicate FarFromWrap(t: u32)
  {
    t + SECONDS_IN_DAY + MAX_PERIOD_SECONDS < U32_LIMIT
  }

  lemma VisitIsLater(c: Settings, t: u32, i: nat)
    requires i < 5 && FarFromWrap(t)
    requires Visit(c, t, t % SECONDS_IN_DAY, i).Scheduled?
    ensures t < Visit(c, t, t % SECONDS_IN_DAY, i).s.next <= t + MAX_PERIOD_SECONDS
  {
    var cs := t % SECONDS_IN_DAY;
    var p := c.startStopPeriods[i];
    var start := StartSeconds(p);
    var stop := StopSeconds(p);
    assert cs <= t;
    if cs < start {
      VisitBefore(c, t, cs, i);
    } else {
      VisitInside(c, t, cs, i);
      var cycle := Cycle(c);
      InPeriodIsLater(t, cs, start, stop, CyclesAfter(cs - start, cycle) * cycle);
    }
  }

  lemma InPeriodIsLater(t: u32, cs: u32, start: u32, stop: nat, fromStart: u32)
    requires cs <= t && start <= cs && cs - start < fromStart < stop - start
    requires stop <= MAX_PERIOD_SECONDS && t + MAX_PERIOD_SECONDS < U32_LIMIT
    ensures t < Add32(Add32(t, Sub32(start, cs)), fromStart) <= t + MAX_PERIOD_SECONDS
  {
    InPeriodSum(t, cs, start, fromStart);
  }

  /** What Visit gives for a time of day before period i. */
  lemma VisitBefore(c: Settings, t: u32, cs: nat, i: nat)
    requires i < 5 && cs < SECONDS_IN_DAY
    requires cs < StartSeconds(c.startStopPeriods[i])
    ensures var start := StartSeconds(c.startStopPeriods[i]);
            var stop := StopSeconds(c.startStopPeriods[i]);
            Visit(c, t, cs, i) == Scheduled(Schedule(Add32(t, start - cs), Min(c.recordDuration, Sub32(stop, start))))
  {
  }

  /** What Visit gives for a time of day inside period i. */
  lemma VisitInside(c: Settings, t: u32, cs: nat, i: nat)
    requires i < 5 && cs < SECONDS_IN_DAY
    requires StartSeconds(c.startStopPeriods[i]) <= cs
    requires Visit(c, t, cs, i).Scheduled?
    ensures var start := StartSeconds(c.startStopPeriods[i]);
            var stop := StopSeconds(c.startStopPeriods[i]);
            var fromStart := CyclesAfter(cs - start, Cycle(c)) * Cycle(c);
            && cs < stop && Cycle(c) > 0 && cs - start < fromStart < stop - start
            && Visit(c, t, cs, i).s == Schedule(Add32(Add32(t, Sub32(start, cs)), fromStart),
                                                Min(c.recordDuration, stop - start - fromStart))
  {
  }

  /** The in-period sum, wrapped three times in C, is the plain sum when it fits. */
  lemma InPeriodSum(t: u32, cs: u32, start: u32, fromStart: u32)
    requires start <= cs <= t && t + (start - cs) + fromStart < U32_LIMIT
    ensures Add32(Add32(t, Sub32(start, cs)), fromStart) == t + (start - cs) + fromStart
  {
  }

  lemma TomorrowIsLater(c: Settings, t: u32)
    requires FarFromWrap(t)
    ensures t < Tomorrow(c, t, t % SECONDS_IN_DAY).next <= t + SECONDS_IN_DAY + MAX_PERIOD_SECONDS
  {
  }

  lemma {:induction false} ScanIsLater(c: Settings, t: u32, i: nat)
    requires c.activeStartStopPeriods <= 5 && FarFromWrap(t)
    requires Scan(c, t, t % SECONDS_IN_DAY, i).Scheduled?
    ensures t < Scan(c, t, t % SECONDS_IN_DAY, i).s.next <= t + SECONDS_IN_DAY + MAX_PERIOD_SECONDS
    decreases c.activeStartStopPeriods - i
  {
    var cs := t % SECONDS_IN_DAY;
    if i >= c.activeStartStopPeriods {
      TomorrowIsLater(c, t);
    } else if Visit(c, t, cs, i).NextPeriod? {
      ScanIsLater(c, t, i + 1);
    } else {
      VisitIsLater(c, t, i);
    }
  }

  /** The next recording is strictly in the future, and at most a day plus
      the latest period start away, whenever no uint32_t sum wraps. */
  lemma PlanIsLater(c: Settings, t: u32)
    requires FarFromWrap(t) && Plan(c, t).Some?
    ensures t < Plan(c, t).value.next
    ensures c.activeStartStopPeriods > 0 ==> Plan(c, t).value.next <= t + SECONDS_IN_DAY + MAX_PERIOD_SECONDS
  {
    if Clamped(c).activeStartStopPeriods > 0 {
      ScanIsLater(Clamped(c), t, 0);
    }
  }

  /** k whole cycles after the period's start is the first cycle start past
      the time of day cs, and it still lies inside the period. */
  predicate FirstCycleStartAfter(start: nat, stop: nat, cycle: nat, cs: nat, k: nat)
  {
    1 <= k && start + (k - 1) * cycle <= cs < start + k * cycle < stop
  }

  /** s starts k cycles into the period [start, stop) and ends by its stop. */
  predicate StartsAtCycle(s: Schedule, t: int, cs: nat, start: nat, stop: nat, cycle: nat, recordDuration: nat, k: nat)
  {
    FirstCycleStartAfter(start, stop, cycle, cs, k)
    && s.next == t - cs + start + k * cycle
    && s.duration == Min(recordDuration, stop - (start + k * cycle))
  }

  /** Inside a period the next recording starts at the first cycle boundary
      after now, still before the period stops, and is cut short at the stop. */
  lemma NextStartInPeriod(c: Settings, t: u32, i: nat)
    requires i < 5 && FarFromWrap(t)
    requires StartSeconds(c.startStopPeriods[i]) <= t % SECONDS_IN_DAY
    requires Visit(c, t, t % SECONDS_IN_DAY, i).Scheduled?
    ensures exists k: nat :: StartsAtCycle(Visit(c, t, t % SECONDS_IN_DAY, i).s, t, t % SECONDS_IN_DAY,
                                           StartSeconds(c.startStopPeriods[i]), StopSeconds(c.startStopPeriods[i]),
                                           Cycle(c), c.recordDuration, k)
  {
    var cs := t % SECONDS_IN_DAY;
    var start := StartSeconds(c.startStopPeriods[i]);
    var stop := StopSeconds(c.startStopPeriods[i]);
    var cycle := Cycle(c);
    var r := Visit(c, t, cs, i);
    VisitInside(c, t, cs, i);
    var k := CyclesAfter(cs - start, cycle);
    var fromStart := k * cycle;
    InPeriodSum(t, cs, start, fromStart);
    assert StartsAtCycle(r.s, t, cs, start, stop, cycle, c.recordDuration, k);
  }

  /** The backup-domain words scheduleRecording reads and writes. */
  class BackupDomain {
    var config: Settings
    var timeOfNextRecording: u32
    var durationOfNextRecording: u32

    constructor (c: Settings)
      ensures config == c && timeOfNextRecording == 0 && durationOfNextRecording == 0
    {
      config := c;
      timeOfNextRecording := 0;
      durationOfNextRecording := 0;
    }

    /** scheduleRecording: clamps the period count in place, then stores the
        next start and duration. `defined` is false where C would divide by
        a zero-length cycle; the stored times are then left as they were. */
    method ScheduleRecording(currentTime: u32) returns (defined: bool)
      modifies this
      ensures config == Clamped(old(config))
      ensures defined <==> Plan(old(config), currentTime).Some?
      ensures defined ==> timeOfNextRecording == Plan(old(config), currentTime).value.next
                          && durationOfNextRecording == Plan(old(config), currentTime).value.duration
      ensures !defined ==> timeOfNextRecording == old(timeOfNextRecording)
                           && durationOfNextRecording == old(durationOfNextRecording)
    {
      if config.activeStartStopPeriods > 5 {
        config := config.(activeStartStopPeriods := 5);
      }
      var c := config;
      if c.activeStartStopPeriods == 0 {
        timeOfNextRecording := UINT32_MAX;
        durationOfNextRecording := c.recordDuration;
        return true;
      }
      var cs := currentTime % SECONDS_IN_DAY;
      ghost var scan := Scan(c, currentTime, cs, 0);
      assert Plan(old(config), currentTime) == if scan.Scheduled? then Some(scan.s) else None;
      var i := 0;
      while i < c.activeStartStopPeriods
        invariant 0 <= i <= c.activeStartStopPeriods
        invariant config == c
        invariant Scan(c, currentTime, cs, i) == scan
      {
        var outcome := Visit(c, currentTime, cs, i);
        if outcome.Scheduled? {
          timeOfNextRecording := outcome.s.next;
          durationOfNextRecording := outcome.s.duration;
          return true;
        } else if outcome.Undefined? {
          return false;
        }
        i := i + 1;
      }
      var tomorrow := Tomorrow(c, currentTime, cs);
      timeOfNextRecording := tomorrow.next;
      durationOfNextRecording := tomorrow.duration;
      return true;
    }
  }

  // ---------------------------------------------------------------------
  // setHeaderDetails
  // ---------------------------------------------------------------------

  /** The four header fields setHeaderDetails fills in; the rest are constant. */
  datatype HeaderSizes = HeaderSizes(samplesPerSecond: u32, bytesPerSecond: u32, dataSize: u32, riffSize: u32)

  /** The sizes for a recording of n 16-bit samples at sampleRate. The RIFF
      size counts every byte after the RIFF chunk header, which holds even
      where the uint32_t sums wrap. */
  function HeaderFor(sampleRate: u32, n: u32): (h: HeaderSizes)
    ensures h.samplesPerSecond == sampleRate
    ensures h.riffSize == Wrap32(h.dataSize + WAV_HEADER_SIZE - CHUNK_SIZE)
    ensures BYTES_PER_CAPTURE * sampleRate < U32_LIMIT ==> h.bytesPerSecond == BYTES_PER_CAPTURE * h.samplesPerSecond
    ensures BYTES_PER_CAPTURE * n + WAV_HEADER_SIZE < U32_LIMIT ==>
              h.dataSize == BYTES_PER_CAPTURE * n && h.riffSize + CHUNK_SIZE == WAV_HEADER_SIZE + h.dataSize
  {
    WrapAdd(2 * n, WAV_HEADER_SIZE - CHUNK_SIZE);
    HeaderSizes(sampleRate, Wrap32(2 * sampleRate), Wrap32(2 * n), Wrap32(2 * n + WAV_HEADER_SIZE - CHUNK_SIZE))
  }

  /** The audio samples the header reports: the samples written past the
      part the header overwrites, clamped at zero. */
  function DataSamples(samplesWritten: u32): (d: u32)
    ensures d <= samplesWritten
    ensures samplesWritten >= HEADER_SAMPLES ==> d + HEADER_SAMPLES == samplesWritten
    ensures samplesWritten < HEADER_SAMPLES ==> d == 0
  {
    Max(HEADER_SAMPLES, samplesWritten) - HEADER_SAMPLES
  }

  // ---------------------------------------------------------------------
  // The gain shift of makeRecording
  // ---------------------------------------------------------------------

  function Pow2(k: nat): (r: nat)
    ensures r >= 1
  {
    if k == 0 then 1 else 2 * Pow2(k - 1)
  }

  /** floor(log2 n). */
  function Log2(n: nat): (r: nat)
    requires n >= 1
    ensures Pow2(r) <= n < 2 * Pow2(r)
  {
    if n < 2 then 0 else 1 + Log2(n / 2)
  }

  /** log2 undoes 2^k; so an oversampling factor of 2^k gives the shift
      4 - k. */
  lemma {:induction false} Log2OfPow2(k: nat)
    ensures Log2(Pow2(k)) == k
  {
    if k > 0 {
      Log2OfPow2(k - 1);
      assert Pow2(k) / 2 == Pow2(k - 1);
    }
  }

  lemma Log2OfBand(n: nat)
    requires 16 <= n < 32
    ensures Log2(n) == 4
  {
    var a := n / 2;
    var b := a / 2;
    var c := b / 2;
    var d := c / 2;
    assert d == 1 && Log2(d) == 0;
    assert Log2(c) == 1 && Log2(b) == 2 && Log2(a) == 3;
  }

  /** The bitsToShift loops: halve an oversampling factor above 16, then
      double one below 16, counting the shifts. The sum of oversampling
      samples is scaled by 2^bits so that it reads as about 16 samples. */
  method ShiftForOversampling(oversampling: u16) returns (bits: int, scaled: u16)
    requires oversampling > 0
    ensures bits == 4 - Log2(oversampling)
    ensures 16 <= scaled < 32
    ensures -11 <= bits <= 4
  {
    bits := 0;
    scaled := oversampling;
    while scaled > 16
      invariant 1 <= scaled <= oversampling
      invariant Log2(scaled) - bits == Log2(oversampling)
    {
      scaled := scaled / 2;
      bits := bits - 1;
    }
    while scaled < 16
      invariant 1 <= scaled < 32
      invariant Log2(scaled) - bits == Log2(oversampling)
      decreases 16 - scaled
    {
      assert (2 * scaled) / 2 == scaled;
      scaled := 2 * scaled;
      bits := bits + 1;
    }
    Log2OfBand(scaled);
    Log2Bounded(oversampling);
  }

  lemma Pow2Of16()
    ensures Pow2(16) == 0x1_0000
  {
    assert Pow2(4) == 16;
    assert Pow2(8) == 256;
    assert Pow2(12) == 4096;
  }

  lemma Log2Bounded(n: nat)
    requires 1 <= n < 0x1_0000
    ensures Log2(n) <= 15
  {
    if Log2(n) > 15 {
      Pow2Of16();
      Pow2Monotone(16, Log2(n));
    }
  }

  lemma {:induction false} Pow2Monotone(j: nat, k: nat)
    requires j <= k
    ensures Pow2(j) <= Pow2(k)
    decreases k
  {
    if j < k {
      Pow2Monotone(j, k - 1);
    }
  }

  // ---------------------------------------------------------------------
  // The SRAM ring: DMA interrupt and record loop
  // ---------------------------------------------------------------------

  /** `(x + 1) & (NUMBER_OF_BUFFERS - 1)`: for an unsigned x and a power-of-two
      count the mask is the remainder, and 2^32 is a multiple of 8 so the
      wrap of x + 1 does not change it. */
  function NextBuffer(x: u32): (r: u32)
    ensures r < NUMBER_OF_BUFFERS
    ensures x < NUMBER_OF_BUFFERS - 1 ==> r == x + 1
    ensures x == NUMBER_OF_BUFFERS - 1 ==> r == 0
  {
    (x + 1) % 8
  }

  /** The samples one DMA transfer leaves after summing groups of
      sampleRateDivider raw samples: the index advance per interrupt. */
  function TransferSamples(sampleRateDivider: u8): (n: nat)
    requires sampleRateDivider > 0
    ensures 2 <= n <= NUMBER_OF_SAMPLES_IN_DMA_TRANSFER
  {
    NUMBER_OF_SAMPLES_IN_DMA_TRANSFER / sampleRateDivider
  }

  /** The DMA interrupt's index update as written: advance by the samples one
      transfer yields and move to the next buffer only when the index lands
      exactly on the buffer's end. */
  function DmaStepAsWritten(writeBuffer: u32, index: u32, step: nat, samplesInBuffer: nat): (r: (u32, u32))
    ensures r.0 == writeBuffer || (r.0 == NextBuffer(writeBuffer) && r.1 == 0)
  {
    var advanced := Wrap32(index + step);
    if advanced == samplesInBuffer then (NextBuffer(writeBuffer), 0) else (writeBuffer, advanced)
  }

  /** n interrupts from (writeBuffer, index) with the update as written. */
  function DmaRunAsWritten(writeBuffer: u32, index: u32, step: nat, samplesInBuffer: nat, n: nat): (r: (u32, u32))
    decreases n
  {
    if n == 0 then (writeBuffer, index)
    else
      var prev := DmaRunAsWritten(writeBuffer, index, step, samplesInBuffer, n - 1);
      DmaStepAsWritten(prev.0, prev.1, step, samplesInBuffer)
  }

  lemma MulMono(a: nat, b: nat, s: nat)
    requires a <= b
    ensures a * s <= b * s
  {
    assert b * s - a * s == (b - a) * s;
  }

  lemma MultipleOf(n: nat, s: nat)
    requires s > 0
    ensures (n * s) % s == 0
  {
    var q := (n * s) / s;
    assert n * s == q * s + (n * s) % s;
    if q < n {
      MulMono(q + 1, n, s);
    }
  }

  /** When the step does not divide the buffer length the index never equals
      it: the ring never advances and the index runs on past the buffer. */
  lemma {:induction false} DmaNeverAdvances(writeBuffer: u32, step: nat, samplesInBuffer: nat, n: nat)
    requires step > 0 && samplesInBuffer % step != 0
    requires n * step < U32_LIMIT
    ensures DmaRunAsWritten(writeBuffer, 0, step, samplesInBuffer, n) == (writeBuffer, n * step)
  {
    if n > 0 {
      var before := (n - 1) * step;
      assert before + step == n * step;
      DmaNeverAdvances(writeBuffer, step, samplesInBuffer, n - 1);
      MultipleOf(n, step);
      assert n * step != samplesInBuffer;
      assert Wrap32(before + step) == n * step;
    }
  }

  /** A concrete instance: divider 48 (8 kHz from 384 kHz) gives 10 samples
      per transfer; with 16384-sample buffers the 1639th transfer leaves the
      index 6 samples past the end of buffer 0. */
  lemma DmaOverrunsAtDivider48()
    ensures TransferSamples(48) == 10
    ensures DmaRunAsWritten(0, 0, 10, 16384, 1639) == (0, 16390)
  {
    DmaNeverAdvances(0, 10, 16384, 1639);
  }

  /** The DMA interrupt's index update, corrected: move to the next buffer
      as soon as another transfer would not fit in this one. */
  function DmaStep(writeBuffer: u32, index: u32, step: nat, samplesInBuffer: nat): (r: (u32, u32))
    ensures writeBuffer < NUMBER_OF_BUFFERS ==> r.0 < NUMBER_OF_BUFFERS
    ensures step <= samplesInBuffer ==> r.1 + step <= samplesInBuffer
    ensures r.0 == writeBuffer || (r.0 == NextBuffer(writeBuffer) && r.1 == 0)
  {
    var advanced := Wrap32(index + step);
    if advanced + step > samplesInBuffer then (NextBuffer(writeBuffer), 0) else (writeBuffer, advanced)
  }

  lemma MultiplesGap(x: nat, y: nat, s: nat)
    requires s > 0 && x % s == 0 && y % s == 0 && x < y
    ensures x + s <= y
  {
    var a := x / s;
    var b := y / s;
    assert x == a * s && y == b * s;
    if b <= a {
      MulMono(b, a, s);
    }
    MulMono(a + 1, b, s);
    assert (a + 1) * s == a * s + s;
  }

  /** Wherever the step divides the buffer length the corrected update is
      the update as written. */
  lemma DmaStepAgreesWhenDividing(writeBuffer: u32, index: u32, step: nat, samplesInBuffer: nat)
    requires step > 0 && samplesInBuffer < U32_LIMIT
    requires samplesInBuffer % step == 0 && index % step == 0 && index < samplesInBuffer
    ensures DmaStep(writeBuffer, index, step, samplesInBuffer) == DmaStepAsWritten(writeBuffer, index, step, samplesInBuffer)
  {
    MultiplesGap(index, samplesInBuffer, step);
    var a := index / step;
    assert index == a * step + index % step;
    var advanced := index + step;
    assert advanced == (a + 1) * step;
    MultipleOf(a + 1, step);
    assert Wrap32(index + step) == advanced;
    if advanced < samplesInBuffer {
      MultiplesGap(advanced, samplesInBuffer, step);
    }
  }

  /** The record loop's counters: the next buffer to write out, the samples
      written so far (header space included), and the buffers seen. */
  datatype Progress = Progress(readBuffer: u32, samplesWritten: u32, buffersProcessed: u32)

  /** The buffers the DMA has filled and the loop has not yet written out:
      the distance from readBuffer forward round the ring to writeBuffer. */
  function Pending(readBuffer: u32, writeBuffer: u32): (n: nat)
    requires readBuffer < NUMBER_OF_BUFFERS && writeBuffer < NUMBER_OF_BUFFERS
    ensures n < NUMBER_OF_BUFFERS
    ensures n == 0 <==> readBuffer == writeBuffer
    ensures (readBuffer + n) % NUMBER_OF_BUFFERS == writeBuffer
  {
    if writeBuffer >= readBuffer then writeBuffer - readBuffer else writeBuffer - readBuffer + 8
  }

  lemma PendingShrinks(readBuffer: u32, writeBuffer: u32)
    requires readBuffer < NUMBER_OF_BUFFERS && writeBuffer < NUMBER_OF_BUFFERS && readBuffer != writeBuffer
    ensures Pending(NextBuffer(readBuffer), writeBuffer) == Pending(readBuffer, writeBuffer) - 1
  {
  }

  /** One pass of the inner record loop: write out buffer readBuffer, except
      the first NUMBER_OF_BUFFERS_TO_SKIP, never past the target. */
  function WriteOne(p: Progress, target: u32, samplesInBuffer: nat): (r: Progress)
    requires p.samplesWritten <= target
    ensures r.readBuffer == NextBuffer(p.readBuffer)
    ensures p.samplesWritten <= r.samplesWritten <= target
    ensures r.samplesWritten - p.samplesWritten <= samplesInBuffer
    ensures p.buffersProcessed < NUMBER_OF_BUFFERS_TO_SKIP ==> r.samplesWritten == p.samplesWritten
  {
    var toWrite := if p.buffersProcessed >= NUMBER_OF_BUFFERS_TO_SKIP
                   then Min(target - p.samplesWritten, samplesInBuffer) else 0;
    Progress(NextBuffer(p.readBuffer), p.samplesWritten + toWrite, Wrap32(p.buffersProcessed + 1))
  }

  /** The inner record loop with the DMA position fixed: write out the
      filled buffers until the reader catches up or the target is met. */
  function Drain(p: Progress, writeBuffer: u32, target: u32, samplesInBuffer: nat, stopped: bool): (r: Progress)
    requires p.readBuffer < NUMBER_OF_BUFFERS && writeBuffer < NUMBER_OF_BUFFERS
    requires p.samplesWritten <= target
    ensures r.readBuffer < NUMBER_OF_BUFFERS
    ensures p.samplesWritten <= r.samplesWritten <= target
    ensures stopped ==> r == p
    ensures !stopped ==> r.readBuffer == writeBuffer || r.samplesWritten == target
    ensures !stopped && r.samplesWritten < target ==> r.readBuffer == writeBuffer
    decreases Pending(p.readBuffer, writeBuffer)
  {
    if p.readBuffer == writeBuffer || p.samplesWritten >= target || stopped then p
    else Drain(WriteOne(p, target, samplesInBuffer), writeBuffer, target, samplesInBuffer, stopped)
  }

  /** The rate of the recorded file: one output sample per sampleRateDivider
      microphone samples. */
  function OutputRate(c: Settings): (r: u32)
    requires c.sampleRateDivider > 0
    ensures r <= c.sampleRate
    ensures r * c.sampleRateDivider <= c.sampleRate < (r + 1) * c.sampleRateDivider
  {
    var q := c.sampleRate / c.sampleRateDivider;
    assert c.sampleRate == q * c.sampleRateDivider + c.sampleRate % c.sampleRateDivider;
    assert (q + 1) * c.sampleRateDivider == q * c.sampleRateDivider + c.sampleRateDivider;
    MulMono(1, c.sampleRateDivider, q);
    q
  }

  /** The samples a recording asks for: the output rate times the seconds,
      in uint32_t. */
  function NumberOfSamples(c: Settings, recordDuration: u32): (n: u32)
    requires c.sampleRateDivider > 0
    ensures OutputRate(c) * recordDuration < U32_LIMIT ==> n == OutputRate(c) * recordDuration
  {
    Wrap32(OutputRate(c) * recordDuration)
  }

  /** Whatever the loop wrote, the data length the header reports is at most
      the samples requested, provided the request plus header fits uint32_t. */
  lemma DataWithinRequest(c: Settings, recordDuration: u32, p: Progress, writeBuffer: u32, stopped: bool, samplesInBuffer: nat)
    requires c.sampleRateDivider > 0
    requires NumberOfSamples(c, recordDuration) + HEADER_SAMPLES < U32_LIMIT
    requires p.readBuffer < NUMBER_OF_BUFFERS && writeBuffer < NUMBER_OF_BUFFERS
    requires p.samplesWritten <= NumberOfSamples(c, recordDuration) + HEADER_SAMPLES
    ensures DataSamples(Drain(p, writeBuffer, NumberOfSamples(c, recordDuration) + HEADER_SAMPLES,
                              samplesInBuffer, stopped).samplesWritten)
            <= NumberOfSamples(c, recordDuration)
  {
  }

  /** The statics of the recording path: the gain shift, the DMA write
      position in the ring, and the variable fields of the WAV header. */
  class Recording {
    var bitsToShift: int
    var writeBuffer: u32
    var writeBufferIndex: u32
    var header: HeaderSizes
    /** NUMBER_OF_SAMPLES_IN_BUFFER: the external SRAM split into the ring's buffers. */
    const samplesInBuffer: nat

    ghost predicate Valid()
      reads this
    {
      writeBuffer < NUMBER_OF_BUFFERS && writeBufferIndex + 1 <= samplesInBuffer
    }

    constructor (samplesInBuffer: nat)
      requires samplesInBuffer >= 1
      ensures Valid()
      ensures this.samplesInBuffer == samplesInBuffer
      ensures bitsToShift == 0 && writeBuffer == 0 && writeBufferIndex == 0
      ensures header == HeaderSizes(0, 0, 0, 0)
    {
      this.samplesInBuffer := samplesInBuffer;
      bitsToShift := 0;
      writeBuffer := 0;
      writeBufferIndex := 0;
      header := HeaderSizes(0, 0, 0, 0);
    }

    /** setHeaderDetails. */
    method SetHeaderDetails(sampleRate: u32, numberOfSamples: u32)
      modifies this
      ensures header == HeaderFor(sampleRate, numberOfSamples)
      ensures bitsToShift == old(bitsToShift) && writeBuffer == old(writeBuffer)
              && writeBufferIndex == old(writeBufferIndex)
    {
      var samplesPerSecond := sampleRate;
      var bytesPerSecond := Wrap32(2 * sampleRate);
      var dataSize := Wrap32(2 * numberOfSamples);
      var riffSize := Wrap32(2 * numberOfSamples + WAV_HEADER_SIZE - CHUNK_SIZE);
      header := HeaderSizes(samplesPerSecond, bytesPerSecond, dataSize, riffSize);
    }

    /** The start of makeRecording: empty ring, and the gain shift for the
        configured oversampling. An oversampling factor of 0 would loop
        forever, so the model asks for a positive one. */
    method StartRecording(c: Settings)
      requires c.oversampleRate * c.sampleRateDivider > 0
      requires samplesInBuffer >= 1
      modifies this
      ensures Valid()
      ensures writeBuffer == 0 && writeBufferIndex == 0
      ensures bitsToShift == 4 - Log2(c.oversampleRate * c.sampleRateDivider)
      ensures header == old(header)
    {
      writeBuffer := 0;
      writeBufferIndex := 0;
      var oversampling := c.oversampleRate * c.sampleRateDivider;
      var scaled;
      bitsToShift, scaled := ShiftForOversampling(oversampling);
    }

    /** The DMA interrupt's bookkeeping, with the corrected buffer guard: the
        filtered samples of one transfer land at writeBufferIndex, then the
        index moves on. */
    method DmaTransferComplete(sampleRateDivider: u8)
      requires Valid() && sampleRateDivider > 0
      requires TransferSamples(sampleRateDivider) <= samplesInBuffer
      modifies this
      ensures Valid()
      ensures (writeBuffer, writeBufferIndex)
              == DmaStep(old(writeBuffer), old(writeBufferIndex), TransferSamples(sampleRateDivider), samplesInBuffer)
      ensures writeBufferIndex + TransferSamples(sampleRateDivider) <= samplesInBuffer
      ensures bitsToShift == old(bitsToShift) && header == old(header)
    {
      var step := TransferSamples(sampleRateDivider);
      writeBufferIndex := Wrap32(writeBufferIndex + step);
      if writeBufferIndex + step > samplesInBuffer {
        writeBufferIndex := 0;
        writeBuffer := NextBuffer(writeBuffer);
      }
    }

    /** The inner record loop: write out the buffers the DMA has filled. */
    method WriteFilledBuffers(p: Progress, target: u32, stopped: bool) returns (r: Progress)
      requires Valid() && p.readBuffer < NUMBER_OF_BUFFERS && p.samplesWritten <= target
      ensures r == Drain(p, writeBuffer, target, samplesInBuffer, stopped)
    {
      r := p;
      while r.readBuffer != writeBuffer && r.samplesWritten < target && !stopped
        invariant r.readBuffer < NUMBER_OF_BUFFERS && r.samplesWritten <= target
        invariant Drain(r, writeBuffer, target, samplesInBuffer, stopped) == Drain(p, writeBuffer, target, samplesInBuffer, stopped)
        decreases Pending(r.readBuffer, writeBuffer)
      {
        var toWrite := 0;
        if r.buffersProcessed >= NUMBER_OF_BUFFERS_TO_SKIP {
          toWrite := Min(target - r.samplesWritten, samplesInBuffer);
        }
        ghost var prev := r;
        r := Progress((r.readBuffer + 1) % 8, r.samplesWritten + toWrite, Wrap32(r.buffersProcessed + 1));
        assert r == WriteOne(prev, target, samplesInBuffer);
        PendingShrinks(prev.readBuffer, writeBuffer);
      }
    }

    /** The end of makeRecording: clamp the sample count to the header's
        share, then fill in the header for the samples beyond it. */
    method FinishRecording(c: Settings, samplesWritten: u32)
      requires c.sampleRateDivider > 0
      modifies this
      ensures header == HeaderFor(OutputRate(c), DataSamples(samplesWritten))
      ensures bitsToShift == old(bitsToShift) && writeBuffer == old(writeBuffer)
              && writeBufferIndex == old(writeBufferIndex)
    {
      var clamped := Max(HEADER_SAMPLES, samplesWritten);
      SetHeaderDetails(OutputRate(c), clamped - HEADER_SAMPLES);
    }
  }
}
