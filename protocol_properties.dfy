/** What the protocol engine guarantees: the invariant, the monotone request stages, the
    client-id lifecycle, the clear-to-send priority, the change-detection gate, the decoders'
    field layout, and the end-to-end reception of a telegram. */
module ProtocolProperties {
  import opened Bytes
  import opened CircularBuffer
  import opened Crc
  import opened Framing
  import opened SpaTypes
  import opened SpaStates
  import opened Temperature
  import opened Filters
  import opened Protocol

  // ---------------------------------------------------------------------------
  // What each branch of the dispatcher may change.

  /** What the dispatcher guarantees whatever the telegram, beyond its own contract: the
      display scale is left alone, a kept client id stays within the maximum, only
      registration changes the id, and only a status update that passes the gate changes
      the last status checksum. */
  lemma DispatchScope(e: Engine, f: seq<byte>, now: u32)
    ensures var r := Dispatch(e, f, now);
      && r.displayScale == e.displayScale
      && (e.clientId <= MAX_CLIENT_ID ==> r.clientId <= MAX_CLIENT_ID)
      && (r.lastStateCrc != e.lastStateCrc ==>
            RouteOf(e.clientId, f) == StatusRoute && r.lastStateCrc == FrameCrc(f)
            && e.lastStateCrc != FrameCrc(f))
      && (RouteOf(e.clientId, f) != Registration ==> r.clientId == e.clientId)
  {
    var route := RouteOf(e.clientId, f);
    if route in {SettingsRoute, FaultRoute, StatusRoute, FiltersRoute} {
      DecodersScope(e, f, now);
    }
  }

  /** No telegram moves a request stage backwards: registration and status updates leave
      them alone, the clear-to-send moves one from Want to Requested and each decoder moves
      its own to Got. */
  lemma DispatchStagesMonotone(e: Engine, f: seq<byte>, now: u32)
    ensures StagesAtLeast(e, Dispatch(e, f, now))
  {
    if RouteOf(e.clientId, f) !in {Registration, ClearToSendRoute} {
      DecodersStagesMonotone(e, f, now);
    }
  }

  /** Each decoder moves only its own stage, to Got. */
  lemma DecodersStagesMonotone(e: Engine, f: seq<byte>, now: u32)
    ensures StagesAtLeast(e, DecodeSettings(e, f))
    ensures StagesAtLeast(e, DecodeFault(e, f))
    ensures StagesAtLeast(e, DecodeState(e, f, now))
    ensures StagesAtLeast(e, DecodeFilterSettings(e, f))
  {
  }

  // ---------------------------------------------------------------------------
  // The invariant.

  lemma ReadSerialKeepsInv(e: Engine, b: byte, now: u32)
    requires Inv(e)
    ensures Inv(ReadSerial(e, b, now))
  {
    var step := Receive(e.inQ, b);
    if step.outcome.Accepted? {
      DispatchScope(e.(inQ := step.outcome.frame), step.outcome.frame, now);
    } else {
      assert ReadSerial(e, b, now).clientId == e.clientId;
    }
  }

  lemma {:induction false} DrainKeepsInv(e: Engine, rx: seq<byte>, now: u32)
    requires Inv(e)
    ensures Inv(Drain(e, rx, now))
    decreases |rx|
  {
    if rx != [] {
      DrainKeepsInv(e, rx[..|rx| - 1], now);
      ReadSerialKeepsInv(Drain(e, rx[..|rx| - 1], now), rx[|rx| - 1], now);
    }
  }

  lemma TickKeepsInv(e: Engine, now: u32)
    requires Inv(e)
    ensures Inv(Tick(e, now))
  {
  }

  lemma UpdateKeepsInv(e: Engine, now: u32, rx: seq<byte>)
    requires Inv(e)
    ensures Inv(Update(e, now, rx))
  {
    TickKeepsInv(e, now);
    DrainKeepsInv(Tick(e, now), rx, now);
  }

  // ---------------------------------------------------------------------------
  // Request stages.

  /** No stage of `r` is behind the one of `e`. */
  predicate StagesAtLeast(e: Engine, r: Engine)
  {
    && Rank(e.configStage) <= Rank(r.configStage)
    && Rank(e.faultStage) <= Rank(r.faultStage)
    && Rank(e.filterStage) <= Rank(r.filterStage)
  }

  /** The stages never move backwards while bytes are received. */
  lemma ReadSerialStagesMonotone(e: Engine, b: byte, now: u32)
    ensures StagesAtLeast(e, ReadSerial(e, b, now))
  {
    var step := Receive(e.inQ, b);
    if step.outcome.Accepted? {
      var f := step.outcome.frame;
      var d := Dispatch(e.(inQ := f), f, now);
      DispatchStagesMonotone(e.(inQ := f), f, now);
      assert ReadSerial(e, b, now) == d.(inQ := [], lastReceivedTime := now);
    } else {
      ReadSerialPaths(e, b, now);
    }
  }

  lemma {:induction false} DrainStagesMonotone(e: Engine, rx: seq<byte>, now: u32)
    ensures StagesAtLeast(e, Drain(e, rx, now))
    decreases |rx|
  {
    if rx != [] {
      DrainStagesMonotone(e, rx[..|rx| - 1], now);
      ReadSerialStagesMonotone(Drain(e, rx[..|rx| - 1], now), rx[|rx| - 1], now);
    }
  }

  /** Neither does a whole polling tick move them backwards. */
  lemma UpdateStagesMonotone(e: Engine, now: u32, rx: seq<byte>)
    ensures StagesAtLeast(e, Update(e, now, rx))
  {
    assert StagesAtLeast(e, Tick(e, now));
    DrainStagesMonotone(Tick(e, now), rx, now);
  }

  /** Which telegram moved a stage: the routes a stage can change on. */
  lemma StageRoutes(e: Engine, f: seq<byte>, now: u32)
    ensures var r := Dispatch(e, f, now);
      var route := RouteOf(e.clientId, f);
      && (r.configStage != e.configStage ==>
            || (route == ClearToSendRoute && ChooseReply(e) == AskConfig && r.configStage == Requested)
            || (route == SettingsRoute && e.lastStateCrc != FrameCrc(f) && r.configStage == Got))
      && (r.faultStage != e.faultStage ==>
            || (route == ClearToSendRoute && ChooseReply(e) == AskFaultLog && r.faultStage == Requested)
            || (route == FaultRoute && e.lastStateCrc != FrameCrc(f) && r.faultStage == Got))
      && (r.filterStage != e.filterStage ==>
            || (route == ClearToSendRoute && ChooseReply(e) == AskFilters && r.filterStage == Requested)
            || (route == FiltersRoute && e.lastStateCrc != FrameCrc(f) && r.filterStage == Got))
  {
    var route := RouteOf(e.clientId, f);
    if route in {SettingsRoute, FaultRoute, StatusRoute, FiltersRoute} {
      DecodersScope(e, f, now);
    }
  }

  /** A stage changes only on an accepted telegram routed to the clear-to-send branch or to
      its own decoder. */
  lemma StageChangesNeedTelegram(e: Engine, b: byte, now: u32)
    ensures var r := ReadSerial(e, b, now);
      var step := Receive(e.inQ, b);
      (r.configStage != e.configStage || r.faultStage != e.faultStage
       || r.filterStage != e.filterStage) ==>
        && step.outcome.Accepted?
        && RouteOf(e.clientId, step.outcome.frame) in
             {ClearToSendRoute, SettingsRoute, FaultRoute, FiltersRoute}
  {
    var step := Receive(e.inQ, b);
    if step.outcome.Accepted? {
      StageRoutes(e.(inQ := step.outcome.frame), step.outcome.frame, now);
    }
  }

  // ---------------------------------------------------------------------------
  // Clear to send.

  /** The strict priority: a pending clock, then a pending set-point, then any other pending
      command; only with nothing pending the configuration, the fault log and the filter
      settings are asked for, in that order, and otherwise "nothing to send". */
  lemma ClearToSendPriority(e: Engine)
    ensures var p := ReplyPayload(e, ChooseReply(e));
      && (e.sendCommand == SET_TIME ==> p == [e.clientId, 0xBF, 0x21, e.targetHour, e.targetMinute])
      && (e.sendCommand == SET_TEMPERATURE ==> p == [e.clientId, 0xBF, 0x20, e.targetTemperature])
      && (e.sendCommand !in {NO_COMMAND, SET_TIME, SET_TEMPERATURE} ==>
            p == [e.clientId, 0xBF, 0x11, e.sendCommand, 0x00])
      && (e.sendCommand == NO_COMMAND ==>
            && (e.configStage == Want ==> p == [e.clientId, 0xBF, 0x22, 0x00, 0x00, 0x01])
            && (e.configStage != Want && e.faultStage == Want ==>
                  p == [e.clientId, 0xBF, 0x22, 0x20, 0xFF, 0x00])
            && (e.configStage != Want && e.faultStage == Got && e.filterStage == Want ==>
                  p == [e.clientId, 0xBF, 0x22, 0x01, 0x00, 0x00])
            && (e.configStage != Want && e.faultStage != Want
                && !(e.faultStage == Got && e.filterStage == Want) ==>
                  p == [e.clientId, 0xBF, 0x07]))
  {
  }

  /** The fault log is asked for as soon as the configuration has been requested, before it
      has arrived. */
  lemma FaultLogAskedBeforeConfigArrives(e: Engine)
    requires e.sendCommand == NO_COMMAND && e.configStage == Requested && e.faultStage == Want
    ensures ChooseReply(e) == AskFaultLog
    ensures ClearToSend(e).faultStage == Requested && ClearToSend(e).configStage == Requested
  {
  }

  // ---------------------------------------------------------------------------
  // Client id.

  /** While unregistered, an accepted id grant sets the id to the granted byte clamped to
      0x2F and acknowledges it; nothing else changes but the reception time. */
  lemma GrantAcknowledged(e: Engine, b: byte, now: u32)
    requires e.clientId == 0
    requires var o := Receive(e.inQ, b).outcome;
      o.Accepted? && At(o.frame, 2) == UNREGISTERED && At(o.frame, 4) == ID_ASSIGNED
    ensures var f := Receive(e.inQ, b).outcome.frame;
      var id := GrantedId(At(f, 5));
      && id == (if At(f, 5) <= 0x2F then At(f, 5) else 0x2F)
      && ReadSerial(e, b, now)
         == e.(inQ := [], clientId := id, written := e.written + Frame([id, 0xBF, 0x03]),
               lastReceivedTime := now)
  {
    var f := Receive(e.inQ, b).outcome.frame;
    var id := GrantedId(At(f, 5));
    var z := e.(inQ := f);
    assert RouteOf(z.clientId, f) == Registration;
    assert Unregistered(z, f) == z.(clientId := id, written := z.written + Frame(IdAck(id)) + []);
    assert z.written + Frame(IdAck(id)) + [] == e.written + Frame([id, 0xBF, 0x03]);
    assert ReadSerial(e, b, now) == Unregistered(z, f).(inQ := [], lastReceivedTime := now);
  }

  /** While unregistered, an accepted new-client query is answered with the id request. */
  lemma QueryAnswered(e: Engine, b: byte, now: u32)
    requires e.clientId == 0
    requires var o := Receive(e.inQ, b).outcome;
      o.Accepted? && At(o.frame, 2) == UNREGISTERED && At(o.frame, 4) == NEW_CLIENT_QUERY
    ensures ReadSerial(e, b, now)
            == e.(inQ := [], written := e.written + Frame([0xFE, 0xBF, 0x01, 0x02, 0xF1, 0x73]),
                  lastReceivedTime := now)
  {
    var f := Receive(e.inQ, b).outcome.frame;
    var z := e.(inQ := f);
    assert RouteOf(z.clientId, f) == Registration;
    assert Unregistered(z, f) == z.(written := z.written + [] + Frame(ID_REQUEST));
    assert z.written + [] + Frame(ID_REQUEST) == e.written + Frame(ID_REQUEST);
    assert ReadSerial(e, b, now) == Unregistered(z, f).(inQ := [], lastReceivedTime := now);
  }

  /** An unregistered client decodes nothing and sends only registration traffic: its id and
      what it writes are all that can change. */
  lemma UnregisteredDecodesNothing(e: Engine, f: seq<byte>, now: u32)
    requires e.clientId == 0
    ensures Dispatch(e, f, now).(clientId := 0, written := e.written) == e
  {
  }

  /** When the periodic filter request is due and the client still has an id after the
      liveness test, a tick writes exactly the framed filter-settings request under that
      id. */
  lemma PeriodicRequestSent(e: Engine, now: u32)
    ensures var r := Tick(e, now);
      Sub32(now, e.lastFilterRequest) > 60000 && r.clientId != 0 ==>
        r.written == e.written + Frame([r.clientId, 0xBF, 0x22, 0x01, 0x00, 0x00])
  {
  }

  // ---------------------------------------------------------------------------
  // Reception.

  /** The reassembler's effect on the engine: dropped bytes, doubled delimiters and
      checksum mismatches change only the input queue, a stored byte also the reception
      time; every completed telegram leaves the input queue empty, and a mismatched one is
      not dispatched. */
  lemma ReadSerialPaths(e: Engine, b: byte, now: u32)
    ensures var step := Receive(e.inQ, b);
      var r := ReadSerial(e, b, now);
      && (step.outcome in {Dropped, DoubleDelimiter, CrcMismatch} ==> r == e.(inQ := step.queue))
      && (step.outcome == CrcMismatch ==> r == e.(inQ := []))
      && (step.outcome == Stored ==> r == e.(inQ := step.queue, lastReceivedTime := now))
      && (step.outcome.Accepted? ==> r.inQ == [] && r.lastReceivedTime == now)
      && (r.lastReceivedTime != e.lastReceivedTime ==> step.outcome == Stored || step.outcome.Accepted?)
  {
    var step := Receive(e.inQ, b);
    if step.outcome.Accepted? {
      DispatchScope(e.(inQ := step.outcome.frame), step.outcome.frame, now);
    }
  }

  /** A byte other than the delimiter arriving at an empty queue is not stored and changes
      nothing. */
  lemma StrayByteIgnored(e: Engine, b: byte, now: u32)
    requires e.inQ == [] && b != DELIMITER
    ensures ReadSerial(e, b, now) == e
  {
    NonDelimiterAtEmptyQueueDropped(b);
  }

  /** The gate: a configuration, fault-log, status or filter telegram whose checksum equals
      the last status checksum changes nothing. */
  lemma GateBlocksRepeat(e: Engine, f: seq<byte>, now: u32)
    requires FrameCrc(f) == e.lastStateCrc
    requires RouteOf(e.clientId, f) in {SettingsRoute, FaultRoute, StatusRoute, FiltersRoute}
    ensures Dispatch(e, f, now) == e
  {
    match RouteOf(e.clientId, f)
    case SettingsRoute =>
    case FaultRoute =>
    case StatusRoute =>
    case FiltersRoute =>
  }

  /** Only a status telegram that passes the gate changes the last status checksum, and then
      to that telegram's checksum. */
  lemma OnlyStatusWritesCrc(e: Engine, b: byte, now: u32)
    ensures var r := ReadSerial(e, b, now);
      var step := Receive(e.inQ, b);
      r.lastStateCrc != e.lastStateCrc ==>
        && step.outcome.Accepted?
        && var f := step.outcome.frame;
        && e.clientId != 0 && At(f, 2) == BROADCAST && At(f, 4) == STATUS_UPDATE
        && r.lastStateCrc == FrameCrc(f)
  {
    var step := Receive(e.inQ, b);
    if step.outcome.Accepted? {
      var f := step.outcome.frame;
      var d := Dispatch(e.(inQ := f), f, now);
      assert ReadSerial(e, b, now) == d.(inQ := [], lastReceivedTime := now);
      DispatchScope(e.(inQ := f), f, now);
    } else {
      ReadSerialPaths(e, b, now);
    }
  }

  // ---------------------------------------------------------------------------
  // Decoders.

  /** A temperature byte 0xFF, a reading outside 7 to 40 degrees Celsius or an undefined
      display scale leaves the stored temperature as it was; otherwise the reading replaces
      it. */
  lemma StatusTemperatures(e: Engine, f: seq<byte>)
    ensures var st := StatusFields(e.state, e.spaScale, e.displayScale, f);
      && ((|| At(f, 25) == NO_READING || !InCelsiusRange(RawToCelsius(e.spaScale, At(f, 25)))
           || e.displayScale == Undefined) ==> st.targetTemp == e.state.targetTemp)
      && ((|| At(f, 7) == NO_READING || !InCelsiusRange(RawToCelsius(e.spaScale, At(f, 7)))
           || e.displayScale == Undefined) ==> st.currentTemp == e.state.currentTemp)
      && (DecodeTemp(e.spaScale, e.displayScale, At(f, 25)).Some? ==>
            st.targetTemp == DecodeTemp(e.spaScale, e.displayScale, At(f, 25)))
      && (DecodeTemp(e.spaScale, e.displayScale, At(f, 7)).Some? ==>
            st.currentTemp == DecodeTemp(e.spaScale, e.displayScale, At(f, 7)))
  {
  }

  /** The pumps: pump 1 is the low two bits of byte 16, pump 2 bits 3 and 4, pump 3 off. The
      jet flags read the same byte: jet 1 is pump 1's high bit and jet 2 pump 2's low bit. */
  lemma StatusPumps(e: Engine, f: seq<byte>)
    ensures var st := StatusFields(e.state, e.spaScale, e.displayScale, f);
      && AsByte(st.pump1) == At(f, 16) & 0x03
      && AsByte(st.pump2) == (At(f, 16) & 0x18) >> 3
      && st.pump3 == 0
      && st.jet1 == st.pump1 / 2
      && st.jet2 == st.pump2 % 2
  {
    StatusFlags(e.state, e.spaScale, e.displayScale, f);
    PumpBits(At(f, 16));
  }

  /** A status telegram leaves every flag of the state as the telegram's bytes give it: the
      filter tracker that runs afterwards touches only the filter bookkeeping. */
  lemma DecodeStateFlags(e: Engine, f: seq<byte>, now: u32)
    ensures var st := DecodeState(e, f, now).state;
      && st.restMode == At(f, 10) as nat
      && st.heatState == BitRead(At(f, 15), 4) && st.highrange == BitRead(At(f, 15), 2)
      && st.jet1 == BitRead(At(f, 16), 1) && st.jet2 == BitRead(At(f, 16), 3)
      && st.jet3 == BitRead(At(f, 16), 5) && st.jet4 == BitRead(At(f, 16), 7)
      && AsByte(st.pump1) == At(f, 16) & 0x03
      && AsByte(st.pump2) == (At(f, 16) & 0x18) >> 3 && st.pump3 == 0
      && st.circulation == BitRead(At(f, 18), 1) && st.blower == BitRead(At(f, 18), 2)
      && st.light == (if At(f, 19) == 0x03 then 1 else 0)
      && st.hour == At(f, 8) as nat % 32 && st.minutes == At(f, 9) as nat % 64
  {
    StatusFlags(e.state, e.spaScale, e.displayScale, f);
  }

  lemma PumpBits(v: byte)
    ensures BitRead(v, 1) == TwoBits(v & 0x03) / 2
    ensures BitRead(v, 3) == TwoBits((v & 0x18) >> 3) % 2
  {
  }

  // ---------------------------------------------------------------------------
  // Commands.

  /** A valid schedule for filter 1 is stored and filter 2's window kept. */
  lemma FirstScheduleStored(e: Engine, sh: byte, sm: byte, dh: byte, dm: byte)
    requires ValidSchedule(sh, sm, dh, dm)
    ensures var fs := SetFilterSchedule(e, false, sh, sm, dh, dm).filters;
      && fs.filter1Hour == sh as nat && fs.filter1Minute == sm as nat
      && fs.filter1DurationHour == dh as nat && fs.filter1DurationMinute == dm as nat
      && fs.(filter1Hour := e.filters.filter1Hour, filter1Minute := e.filters.filter1Minute,
             filter1DurationHour := e.filters.filter1DurationHour,
             filter1DurationMinute := e.filters.filter1DurationMinute) == e.filters
  {
  }

  /** A valid schedule for filter 2 is stored, its enable flag and filter 1's window kept. */
  lemma SecondScheduleStored(e: Engine, sh: byte, sm: byte, dh: byte, dm: byte)
    requires ValidSchedule(sh, sm, dh, dm)
    ensures var fs := SetFilterSchedule(e, true, sh, sm, dh, dm).filters;
      && fs.filter2Hour == sh as nat && fs.filter2Minute == sm as nat
      && fs.filter2DurationHour == dh as nat && fs.filter2DurationMinute == dm as nat
      && fs.(filter2Hour := e.filters.filter2Hour, filter2Minute := e.filters.filter2Minute,
             filter2DurationHour := e.filters.filter2DurationHour,
             filter2DurationMinute := e.filters.filter2DurationMinute) == e.filters
  {
  }

  /** The schedule telegram carries both windows in the order and bit layout that the
      filter-configuration decoder reads them back: filter 2's enable flag in bit 7 of its
      start hour. */
  lemma ScheduleTelegramLayout(id: byte, fs: FilterSettings)
    ensures var p := ScheduleTelegram(id, fs);
      && |p| == 12 && p[..4] == [id, 0xBF, 0x22, 0x01]
      && p[4] as nat == fs.filter1Hour && p[5] as nat == fs.filter1Minute
      && p[6] as nat == fs.filter1DurationHour && p[7] as nat == fs.filter1DurationMinute
      && BitRead(p[8], 7) == fs.filter2Enable && Low5(p[8]) == fs.filter2Hour
      && p[9] as nat == fs.filter2Minute
      && p[10] as nat == fs.filter2DurationHour && p[11] as nat == fs.filter2DurationMinute
  {
    AsByteValue(fs.filter1Hour);
    AsByteValue(fs.filter1Minute);
    AsByteValue(fs.filter1DurationHour);
    AsByteValue(fs.filter1DurationMinute);
    EnableKept(fs.filter2Hour, fs.filter2Enable);
    AsByteValue(fs.filter2Minute);
    AsByteValue(fs.filter2DurationHour);
    AsByteValue(fs.filter2DurationMinute);
  }

  lemma AsByteValue(n: u8)
    ensures AsByte(n) as nat == n
  {
    ByteOfNat(n);
  }

  /** The filter-configuration decoder reads back exactly the settings that a schedule
      telegram carries, once its data bytes follow a five-byte header as they do in a
      received telegram. */
  lemma FilterDecodeRoundTrip(e: Engine, h: seq<byte>, id: byte, fs: FilterSettings)
    requires |h| == 5
    ensures DecodeFilterSettings(e, h + ScheduleTelegram(id, fs)[4..]).filters == fs
  {
    var p := ScheduleTelegram(id, fs);
    var f := h + p[4..];
    assert At(f, 5) == p[4] && At(f, 6) == p[5] && At(f, 7) == p[6] && At(f, 8) == p[7];
    assert At(f, 9) == p[8] && At(f, 10) == p[9] && At(f, 11) == p[10] && At(f, 12) == p[11];
    Low5Kept(fs.filter1Hour);
    Low6Kept(fs.filter1Minute);
    Low5Kept(fs.filter1DurationHour);
    Low6Kept(fs.filter1DurationMinute);
    EnableKept(fs.filter2Hour, fs.filter2Enable);
    Low6Kept(fs.filter2Minute);
    Low5Kept(fs.filter2DurationHour);
    Low6Kept(fs.filter2DurationMinute);
    assert FilterSettingsOf(f) == fs;
  }

  lemma Low5Kept(n: u5)
    ensures Low5(AsByte(n)) == n
  {
    ByteOfNat(n);
  }

  lemma Low6Kept(n: u6)
    ensures Low6(AsByte(n)) == n
  {
    ByteOfNat(n);
  }

  lemma EnableKept(hour: u5, enable: u1)
    ensures BitRead(AsByte(hour + 128 * enable), 7) == enable
    ensures Low5(AsByte(hour + 128 * enable)) == hour
  {
    var v := AsByte(hour + 128 * enable);
    ByteOfNat(hour + 128 * enable);
    EnableBit(v);
  }

  // ---------------------------------------------------------------------------
  // End to end.

  /** While a well-framed telegram arrives at an empty input queue, every byte but the last
      is stored and nothing else changes but the reception time. */
  lemma {:induction false} DrainWellFramedPrefix(e: Engine, g: seq<byte>, i: nat, now: u32)
    requires e.inQ == [] && WellFramed(g) && 0 < i < |g|
    ensures Drain(e, g[..i], now) == e.(inQ := g[..i], lastReceivedTime := now)
  {
    assert g[..i][..i - 1] == g[..i - 1];
    WellFramedStored(g, i - 1);
    if i > 1 {
      DrainWellFramedPrefix(e, g, i - 1, now);
    } else {
      assert g[..0] == [];
    }
  }

  /** A well-framed telegram with a matching checksum arriving at an empty input queue is
      dispatched once, as itself, while the queue holds it, with its reception taken note
      of; the queue is empty afterwards. */
  lemma DrainAccepted(e: Engine, g: seq<byte>, now: u32)
    requires e.inQ == [] && WellFramed(g) && Crc8(g[1..|g| - 2]) == g[|g| - 2]
    ensures Drain(e, g, now) == Dispatch(e.(inQ := g, lastReceivedTime := now), g, now).(inQ := [])
  {
    var before := e.(inQ := g[..|g| - 1], lastReceivedTime := now);
    var holding := e.(inQ := g, lastReceivedTime := now);
    DrainUpToLast(e, g, now);
    ClosingDelimiter(before, g, now);
    assert before.(inQ := g) == holding;
  }

  /** One with a mismatching checksum is only taken note of. */
  lemma DrainRejected(e: Engine, g: seq<byte>, now: u32)
    requires e.inQ == [] && WellFramed(g) && Crc8(g[1..|g| - 2]) != g[|g| - 2]
    ensures Drain(e, g, now) == e.(lastReceivedTime := now)
  {
    var before := e.(inQ := g[..|g| - 1], lastReceivedTime := now);
    DrainUpToLast(e, g, now);
    ClosingDelimiter(before, g, now);
  }

  lemma DrainUpToLast(e: Engine, g: seq<byte>, now: u32)
    requires e.inQ == [] && WellFramed(g)
    ensures Drain(e, g, now)
            == ReadSerial(e.(inQ := g[..|g| - 1], lastReceivedTime := now), g[|g| - 1], now)
  {
    DrainWellFramedPrefix(e, g, |g| - 1, now);
  }

  /** The closing delimiter of a well-framed telegram empties the queue and dispatches the
      telegram exactly when its checksum matches. */
  lemma ClosingDelimiter(e: Engine, g: seq<byte>, now: u32)
    requires WellFramed(g) && e.inQ == g[..|g| - 1]
    ensures ReadSerial(e, g[|g| - 1], now)
            == if Crc8(g[1..|g| - 2]) == g[|g| - 2]
               then Dispatch(e.(inQ := g), g, now).(inQ := [], lastReceivedTime := now)
               else e.(inQ := [])
  {
    WellFramedLast(g);
  }

  /** A telegram `p` sent with `rs485_send` and received by an engine with an empty input
      queue is dispatched exactly once, as itself, and leaves the input queue empty. */
  lemma SentTelegramDispatched(e: Engine, p: seq<byte>, now: u32)
    requires e.inQ == [] && |p| <= QUEUE_SIZE - 3
    ensures Drain(e, Frame(p), now)
            == Dispatch(e.(inQ := Frame(p), lastReceivedTime := now), Frame(p), now).(inQ := [])
  {
    DrainAccepted(e, Frame(p), now);
  }

  /** The same telegram with one byte between its length byte and its closing delimiter
      altered is received completely and thrown away: nothing is dispatched. */
  lemma CorruptedTelegramIgnored(e: Engine, p: seq<byte>, k: nat, x: byte, now: u32)
    requires e.inQ == [] && |p| <= QUEUE_SIZE - 3
    requires 2 <= k <= |p| + 2 && x != 0
    ensures var g := Frame(p)[k := Frame(p)[k] ^ x];
      Drain(e, g, now) == e.(lastReceivedTime := now)
  {
    CorruptedChecksum(p, k, x);
    DrainRejected(e, Frame(p)[k := Frame(p)[k] ^ x], now);
  }
}
