/** The filter-cycle tracker: whether a filter window (start and duration, in minutes of the
    day) covers the spa's clock, and the running/stopped bookkeeping done on each status
    telegram. */
module Filters {
  import opened Bytes
  import opened SpaTypes
  import opened SpaStates

  const MINUTES_PER_DAY: nat := 1440
  const MS_PER_HOUR: nat := 3600000
  const MS_PER_MINUTE: nat := 60000

  function Minutes(hour: nat, minute: nat): nat
  {
    hour * 60 + minute
  }

  /** `check_filter_schedule`: no window without a duration; a window that runs past midnight
      is split into the part before and the part after it. For a start and a clock within
      the day and a duration of at most a day, the schedule holds exactly when the clock is
      less than `duration` minutes past the start, counting round the clock. */
  function CheckFilterSchedule(startHour: u8, startMinute: u8, durationHour: u8, durationMinute: u8,
                               currentHour: u8, currentMinute: u8): (r: bool)
    ensures durationHour == 0 && durationMinute == 0 ==> !r
    ensures var start := Minutes(startHour, startMinute);
      var current := Minutes(currentHour, currentMinute);
      var duration := Minutes(durationHour, durationMinute);
      start < MINUTES_PER_DAY && current < MINUTES_PER_DAY && duration <= MINUTES_PER_DAY ==>
        (r <==> duration > 0 && (current - start) % MINUTES_PER_DAY < duration)
  {
    if durationHour == 0 && durationMinute == 0 then false
    else
      var current := Minutes(currentHour, currentMinute);
      var start := Minutes(startHour, startMinute);
      var duration := Minutes(durationHour, durationMinute);
      if duration == 0 then false
      else
        var end := start + duration;
        if end > MINUTES_PER_DAY then current >= start || current < end - MINUTES_PER_DAY
        else current >= start && current < end
  }

  /** A window from 23:50 lasting twenty minutes covers 00:05 but not 00:25. */
  lemma MidnightWindow()
    ensures CheckFilterSchedule(23, 50, 0, 20, 0, 5)
    ensures !CheckFilterSchedule(23, 50, 0, 20, 0, 25)
    ensures CheckFilterSchedule(23, 50, 0, 20, 23, 55)
    ensures !CheckFilterSchedule(23, 50, 0, 20, 23, 45)
  {
  }

  /** The bookkeeping of one filter. */
  datatype Track = Track(running: bool, lastStartTime: u32, runtimeHours: u16, cyclesCompleted: u16)

  /** One filter's update: a start records the time; a stop adds the whole hours elapsed
      (modulo 2^32 milliseconds) to the runtime and counts a cycle, both 16-bit. */
  function Step(t: Track, shouldRun: bool, now: u32): (r: Track)
    ensures r.running == shouldRun
    ensures shouldRun == t.running ==> r == t
    ensures shouldRun && !t.running ==> r == t.(running := true, lastStartTime := now)
    ensures !shouldRun && t.running ==>
      && r.lastStartTime == t.lastStartTime
      && r.cyclesCompleted == (t.cyclesCompleted + 1) % 0x1_0000
      && r.runtimeHours == (t.runtimeHours + Sub32(now, t.lastStartTime) / MS_PER_HOUR) % 0x1_0000
  {
    if shouldRun == t.running then t
    else if shouldRun then t.(running := true, lastStartTime := now)
    else
      var elapsed := Sub32(now, t.lastStartTime);
      t.(running := false,
         runtimeHours := Add16(t.runtimeHours, elapsed / MS_PER_HOUR),
         cyclesCompleted := Add16(t.cyclesCompleted, 1))
  }

  function Track1(st: SpaStateValue): Track
  {
    Track(st.filter1Running, st.filter1LastStartTime, st.filter1RuntimeHours, st.filter1CyclesCompleted)
  }

  function Track2(st: SpaStateValue): Track
  {
    Track(st.filter2Running, st.filter2LastStartTime, st.filter2RuntimeHours, st.filter2CyclesCompleted)
  }

  function ShouldRun1(st: SpaStateValue, fs: FilterSettings): bool
  {
    CheckFilterSchedule(fs.filter1Hour, fs.filter1Minute, fs.filter1DurationHour,
                        fs.filter1DurationMinute, st.hour, st.minutes)
  }

  /** Filter 2 is consulted only when it is enabled. */
  function ShouldRun2(st: SpaStateValue, fs: FilterSettings): bool
  {
    fs.filter2Enable == 1
    && CheckFilterSchedule(fs.filter2Hour, fs.filter2Minute, fs.filter2DurationHour,
                           fs.filter2DurationMinute, st.hour, st.minutes)
  }

  /** `update_filter_status` at clock `now`. Afterwards each filter runs exactly when its
      schedule says so; in particular filter 2 is stopped whenever it is disabled. Each
      filter's bookkeeping takes one `Step`, and nothing else changes. */
  function UpdateFilterStatus(st: SpaStateValue, fs: FilterSettings, now: u32): (r: SpaStateValue)
    ensures r.filter1Running == ShouldRun1(st, fs)
    ensures r.filter2Running == ShouldRun2(st, fs)
    ensures fs.filter2Enable == 0 ==> !r.filter2Running
    ensures Track1(r) == Step(Track1(st), ShouldRun1(st, fs), now)
    ensures Track2(r) == Step(Track2(st), ShouldRun2(st, fs), now)
    ensures r.(filter1Running := st.filter1Running, filter1LastStartTime := st.filter1LastStartTime,
               filter1RuntimeHours := st.filter1RuntimeHours,
               filter1CyclesCompleted := st.filter1CyclesCompleted,
               filter2Running := st.filter2Running, filter2LastStartTime := st.filter2LastStartTime,
               filter2RuntimeHours := st.filter2RuntimeHours,
               filter2CyclesCompleted := st.filter2CyclesCompleted) == st
  {
    var t1 := Step(Track1(st), ShouldRun1(st, fs), now);
    var t2 := Step(Track2(st), ShouldRun2(st, fs), now);
    st.(filter1Running := t1.running, filter1LastStartTime := t1.lastStartTime,
        filter1RuntimeHours := t1.runtimeHours, filter1CyclesCompleted := t1.cyclesCompleted,
        filter2Running := t2.running, filter2LastStartTime := t2.lastStartTime,
        filter2RuntimeHours := t2.runtimeHours, filter2CyclesCompleted := t2.cyclesCompleted)
  }

  /** An update at the same clock reading changes nothing more: the filters already run as
      scheduled. */
  lemma UpdateIdempotent(st: SpaStateValue, fs: FilterSettings, now: u32)
    ensures var r := UpdateFilterStatus(st, fs, now);
      UpdateFilterStatus(r, fs, now) == r
  {
    var r := UpdateFilterStatus(st, fs, now);
    assert ShouldRun1(r, fs) == ShouldRun1(st, fs);
    assert ShouldRun2(r, fs) == ShouldRun2(st, fs);
  }

  /** `get_filterN_current_runtime_minutes`: whole minutes since the filter started, zero when
      it is not running. */
  function CurrentRuntimeMinutes(running: bool, lastStartTime: u32, now: u32): (r: u32)
    ensures !running ==> r == 0
    ensures running ==> r * MS_PER_MINUTE <= Sub32(now, lastStartTime) < (r + 1) * MS_PER_MINUTE
  {
    if !running then 0 else Sub32(now, lastStartTime) / MS_PER_MINUTE
  }
}
