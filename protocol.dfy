/** The protocol engine of the `BalboaSpa` component as a state machine over values: an
    `Engine` is everything the component object holds, and every entry point (`read_serial`
    for one received byte, `update` for one polling tick, the setters) is a function from
    the old engine to the new one. The bytes written to the bus accumulate in `written`. */
module Protocol {
  import opened Bytes
  import opened CircularBuffer
  import opened Crc
  import opened Framing
  import opened SpaTypes
  import opened SpaStates
  import opened Temperature
  import opened Filters

  /** Silence after which the bus is declared dead, and the period of the filter request. */
  const COMMUNICATION_TIMEOUT_MS: nat := 10000
  const FILTER_SETTINGS_REQUEST_INTERVAL_MS: nat := 60000

  /** The fixed second byte of every telegram this client sends. */
  const CLIENT_TAG: byte := 0xBF
  /** The largest client id the driver keeps. */
  const MAX_CLIENT_ID: byte := 0x2F
  /** The destination byte of broadcasts to unregistered clients and of status updates. */
  const UNREGISTERED: byte := 0xFE
  const BROADCAST: byte := 0xFF

  /** Telegram types (byte 4 of a received telegram). */
  const NEW_CLIENT_QUERY: byte := 0x00
  const ID_ASSIGNED: byte := 0x02
  const CLEAR_TO_SEND: byte := 0x06
  const STATUS_UPDATE: byte := 0x13
  const FILTER_CONFIG: byte := 0x23
  const FAULT_LOG: byte := 0x28
  const CONFIGURATION: byte := 0x2E

  /** The values of the one pending-command slot `send_command`. */
  const NO_COMMAND: byte := 0x00
  const SET_TIME: byte := 0x21
  const SET_TEMPERATURE: byte := 0xFF
  const TOGGLE_LIGHT: byte := 0x11
  const TOGGLE_JET1: byte := 0x04
  const TOGGLE_JET2: byte := 0x05
  const TOGGLE_JET3: byte := 0x06
  const TOGGLE_JET4: byte := 0x07
  const TOGGLE_BLOWER: byte := 0x0C
  const TOGGLE_HIGHRANGE: byte := 0x50

  /** The request stages 0 (want it), 1 (requested it) and 2 (got it). */
  datatype Stage = Want | Requested | Got

  function Rank(s: Stage): (n: nat)
    ensures n < 3
    ensures n == 0 <==> s == Want
    ensures n == 2 <==> s == Got
  {
    match s
    case Want => 0
    case Requested => 1
    case Got => 2
  }

  /** The state of a `BalboaSpa` object, with its output queue left out: it is empty between
      entry points. `communicationError` is the component's error status. */
  datatype Engine = Engine(
    inQ: seq<byte>,
    written: seq<byte>,
    clientId: byte,
    sendCommand: byte,
    targetTemperature: byte,
    targetHour: byte,
    targetMinute: byte,
    lastStateCrc: byte,
    lastReceivedTime: u32,
    lastFilterRequest: u32,
    communicationError: bool,
    spaScale: TempScale,
    displayScale: TempScale,
    configStage: Stage,
    faultStage: Stage,
    filterStage: Stage,
    config: SpaConfig,
    state: SpaStateValue,
    faultLog: FaultLog,
    filters: FilterSettings)

  /** A freshly constructed object: the member initialisers, with everything the source
      leaves uninitialised at zero. */
  const INITIAL_ENGINE := Engine(
    [], [], 0, NO_COMMAND, 0, 0, 0, 0, 0, 0, false, Undefined, C, Want, Want, Want,
    NO_CONFIG, INITIAL, NO_FAULT_LOG, NO_FILTER_SETTINGS)

  /** The invariant every entry point keeps: the input queue within what `push` allows, and a
      client id no larger than the driver's maximum. */
  predicate Inv(e: Engine)
  {
    |e.inQ| <= QUEUE_SIZE + 1 && e.clientId <= MAX_CLIENT_ID
  }

  lemma InitialInv()
    ensures Inv(INITIAL_ENGINE) && INITIAL_ENGINE.state == INITIAL
  {
  }

  /** `setup`: empties the queues and resets the bus bookkeeping and the request stages;
      everything else (the decoded records, the scales, the pending targets, the error
      status and what was written) is kept. */
  function Setup(e: Engine): (r: Engine)
    ensures Inv(r) && r.inQ == [] && r.clientId == 0 && r.sendCommand == NO_COMMAND
    ensures r.configStage == Want && r.faultStage == Want && r.filterStage == Want
    ensures r.lastReceivedTime == 0 && r.lastFilterRequest == 0 && r.lastStateCrc == 0
    ensures r.(inQ := e.inQ, clientId := e.clientId, sendCommand := e.sendCommand,
               configStage := e.configStage, faultStage := e.faultStage,
               filterStage := e.filterStage, lastReceivedTime := e.lastReceivedTime,
               lastFilterRequest := e.lastFilterRequest, lastStateCrc := e.lastStateCrc) == e
  {
    e.(inQ := [], lastReceivedTime := 0, lastFilterRequest := 0, clientId := 0,
       sendCommand := NO_COMMAND, configStage := Want, faultStage := Want, filterStage := Want,
       lastStateCrc := 0)
  }

  // ---------------------------------------------------------------------------
  // Sending.

  /** `ID_request`: "any new clients?" answered with a request for an id. */
  const ID_REQUEST: seq<byte> := [UNREGISTERED, CLIENT_TAG, 0x01, 0x02, 0xF1, 0x73]

  /** `ID_ack`: acknowledges the id just granted. */
  function IdAck(id: byte): seq<byte>
  {
    [id, CLIENT_TAG, 0x03]
  }

  /** The filter-settings request of the periodic poll, of `request_filter_settings` and of
      the third clear-to-send stage. */
  function FilterRequest(id: byte): seq<byte>
  {
    [id, CLIENT_TAG, 0x22, 0x01, 0x00, 0x00]
  }

  function ConfigRequest(id: byte): seq<byte>
  {
    [id, CLIENT_TAG, 0x22, 0x00, 0x00, 0x01]
  }

  function FaultLogRequest(id: byte): seq<byte>
  {
    [id, CLIENT_TAG, 0x22, 0x20, 0xFF, 0x00]
  }

  // ---------------------------------------------------------------------------
  // Clear to send.

  /** What the client sends when the controller gives it the bus. */
  datatype Reply = SetTime | SetTemperature | AskConfig | AskFaultLog | AskFilters
                 | NothingToSend | Toggle

  /** The priority chain over the pending command and the three request stages; the filter
      settings are asked for only once the fault log has arrived. */
  function ChooseReply(e: Engine): (reply: Reply)
    ensures reply in {SetTime, SetTemperature, Toggle} <==> e.sendCommand != NO_COMMAND
    ensures reply == SetTime <==> e.sendCommand == SET_TIME
    ensures reply == SetTemperature <==> e.sendCommand == SET_TEMPERATURE
    ensures reply == AskConfig ==> e.configStage == Want
    ensures reply == AskFaultLog ==> e.configStage != Want && e.faultStage == Want
    ensures reply == AskFilters ==>
      e.configStage != Want && e.faultStage == Got && e.filterStage == Want
  {
    if e.sendCommand == SET_TIME then SetTime
    else if e.sendCommand == SET_TEMPERATURE then SetTemperature
    else if e.sendCommand == NO_COMMAND then
      if e.configStage == Want then AskConfig
      else if e.faultStage == Want then AskFaultLog
      else if e.filterStage == Want && e.faultStage == Got then AskFilters
      else NothingToSend
    else Toggle
  }

  function ReplyPayload(e: Engine, reply: Reply): (p: seq<byte>)
    ensures 3 <= |p| <= 6 && p[0] == e.clientId && p[1] == CLIENT_TAG
  {
    var id := e.clientId;
    match reply
    case SetTime => [id, CLIENT_TAG, 0x21, e.targetHour, e.targetMinute]
    case SetTemperature => [id, CLIENT_TAG, 0x20, e.targetTemperature]
    case AskConfig => ConfigRequest(id)
    case AskFaultLog => FaultLogRequest(id)
    case AskFilters => FilterRequest(id)
    case NothingToSend => [id, CLIENT_TAG, 0x07]
    case Toggle => [id, CLIENT_TAG, 0x11, e.sendCommand, 0x00]
  }

  /** Exactly one telegram is sent, the stage it asks for becomes Requested, and the pending
      command is consumed. */
  function ClearToSend(e: Engine): (r: Engine)
    ensures r.written == e.written + Frame(ReplyPayload(e, ChooseReply(e)))
    ensures r.sendCommand == NO_COMMAND
    ensures r.(written := e.written, sendCommand := e.sendCommand, configStage := e.configStage,
               faultStage := e.faultStage, filterStage := e.filterStage) == e
    ensures r.configStage != e.configStage ==>
      && e.configStage == Want && r.configStage == Requested
      && r.faultStage == e.faultStage && r.filterStage == e.filterStage
    ensures r.faultStage != e.faultStage ==>
      && e.faultStage == Want && r.faultStage == Requested
      && r.configStage == e.configStage && r.filterStage == e.filterStage
    ensures r.filterStage != e.filterStage ==>
      && e.filterStage == Want && r.filterStage == Requested
      && r.configStage == e.configStage && r.faultStage == e.faultStage
  {
    Served(e, ChooseReply(e))
  }

  /** The engine after `reply` has been sent. */
  function Served(e: Engine, reply: Reply): Engine
  {
    e.(written := e.written + Frame(ReplyPayload(e, reply)),
       sendCommand := NO_COMMAND,
       configStage := if reply == AskConfig then Requested else e.configStage,
       faultStage := if reply == AskFaultLog then Requested else e.faultStage,
       filterStage := if reply == AskFilters then Requested else e.filterStage)
  }

  // ---------------------------------------------------------------------------
  // Decoders. `f` is the whole telegram, delimiters included; a byte beyond its end
  // reads as 0.

  /** A masked value held in a two-bit field; every caller masks it below 4 first. */
  function TwoBits(x: byte): (r: u2)
    ensures x < 4 ==> r as bv8 == x
  {
    if x == 0 then 0 else if x == 1 then 1 else if x == 2 then 2 else 3
  }

  lemma LowBitsMod(v: byte)
    ensures Low5(v) == v as nat % 32 && Low6(v) == v as nat % 64
  {
  }

  lemma BitZero(v: byte)
    ensures BitRead(v, 0) == v as nat % 2
    ensures BitRead(v, 0) == 0 <==> v & 1 == 0
  {
  }

  lemma EnableBit(v: byte)
    ensures BitRead(v, 7) == v as nat / 128
    ensures Low5(v) == v as nat % 32
  {
  }

  /** Every two-bit field of a configuration byte fits in two bits, so `TwoBits` keeps it. */
  lemma ConfigMasks(v: byte)
    ensures AsByte(TwoBits(v & 0x03)) == v & 0x03
    ensures AsByte(TwoBits((v & 0x0C) >> 2)) == (v & 0x0C) >> 2
    ensures AsByte(TwoBits((v & 0x30) >> 4)) == (v & 0x30) >> 4
    ensures AsByte(TwoBits((v & 0xC0) >> 6)) == (v & 0xC0) >> 6
    ensures AsByte(TwoBits((v >> 2) & 0x03)) == (v >> 2) & 0x03
  {
    assert v & 0x03 < 4 && (v & 0x0C) >> 2 < 4 && (v & 0x30) >> 4 < 4;
    assert (v & 0xC0) >> 6 < 4 && (v >> 2) & 0x03 < 4;
  }

  /** The configuration record `decodeSettings` assigns field by field: the equipment bits
      and the spa's scale bit. */
  function ConfigOf(f: seq<byte>): (c: SpaConfig)
  {
    var b5 := At(f, 5);
    var b6 := At(f, 6);
    var b7 := At(f, 7);
    var b8 := At(f, 8);
    var b9 := At(f, 9);
    SpaConfig(
      TwoBits(b5 & 0x03), TwoBits((b5 & 0x0C) >> 2), TwoBits((b5 & 0x30) >> 4),
      TwoBits((b5 & 0xC0) >> 6),
      TwoBits(b6 & 0x03), TwoBits((b6 & 0xC0) >> 6),
      TwoBits(b7 & 0x03), TwoBits((b7 >> 2) & 0x03),
      b8 & 0x80 != 0, b8 & 0x03 != 0, b9 & 0x30 != 0, b9 & 0x01 != 0, b9 & 0x02 != 0,
      BitRead(At(f, 3), 0))
  }

  /** The equipment fields of configuration `c` as `decodeSettings` reads them from `f`: the
      pumps two bits each at bits 0, 2, 4 and 6 of byte 5 and bits 0 and 6 of byte 6, the
      lights bits 0 and 2 of byte 7, circulation bit 7 and the blower bits 0-1 of byte 8,
      the mister bits 4-5 and the two auxiliaries bits 0 and 1 of byte 9. */
  predicate ConfigFields(c: SpaConfig, f: seq<byte>)
  {
    && AsByte(c.pump1) == At(f, 5) & 0x03 && AsByte(c.pump2) == (At(f, 5) & 0x0C) >> 2
    && AsByte(c.pump3) == (At(f, 5) & 0x30) >> 4 && AsByte(c.pump4) == (At(f, 5) & 0xC0) >> 6
    && AsByte(c.pump5) == At(f, 6) & 0x03 && AsByte(c.pump6) == (At(f, 6) & 0xC0) >> 6
    && AsByte(c.light1) == At(f, 7) & 0x03 && AsByte(c.light2) == (At(f, 7) >> 2) & 0x03
    && c.circ == (At(f, 8) & 0x80 != 0) && c.blower == (At(f, 8) & 0x03 != 0)
    && c.mister == (At(f, 9) & 0x30 != 0)
    && c.aux1 == (At(f, 9) & 0x01 != 0) && c.aux2 == (At(f, 9) & 0x02 != 0)
  }

  lemma ConfigOfFields(f: seq<byte>)
    ensures ConfigFields(ConfigOf(f), f)
  {
    var c := ConfigOf(f);
    assert && AsByte(c.pump1) == At(f, 5) & 0x03 && AsByte(c.pump2) == (At(f, 5) & 0x0C) >> 2
           && AsByte(c.pump3) == (At(f, 5) & 0x30) >> 4 && AsByte(c.pump4) == (At(f, 5) & 0xC0) >> 6
    by { ConfigMasks(At(f, 5)); }
    assert AsByte(c.pump5) == At(f, 6) & 0x03 && AsByte(c.pump6) == (At(f, 6) & 0xC0) >> 6
    by { ConfigMasks(At(f, 6)); }
    assert AsByte(c.light1) == At(f, 7) & 0x03 && AsByte(c.light2) == (At(f, 7) >> 2) & 0x03
    by { ConfigMasks(At(f, 7)); }
    assert c.circ == (At(f, 8) & 0x80 != 0) && c.blower == (At(f, 8) & 0x03 != 0);
    assert c.mister == (At(f, 9) & 0x30 != 0);
    assert c.aux1 == (At(f, 9) & 0x01 != 0) && c.aux2 == (At(f, 9) & 0x02 != 0);
  }

  /** `decodeSettings`: the configuration record, the spa's scale bit (bit 0 of byte 3)
      adopted as the spa scale only while that is still undefined, and the configuration
      stage Got; nothing else changes. */
  function DecodeSettings(e: Engine, f: seq<byte>): (r: Engine)
    ensures r.configStage == Got
    ensures ConfigFields(r.config, f)
    ensures r.config.temperatureScale == At(f, 3) as nat % 2
    ensures e.spaScale != Undefined ==> r.spaScale == e.spaScale
    ensures e.spaScale == Undefined ==> r.spaScale == (if At(f, 3) & 1 == 0 then F else C)
    ensures r.(config := e.config, configStage := e.configStage, spaScale := e.spaScale) == e
  {
    BitZero(At(f, 3));
    ConfigOfFields(f);
    var c := ConfigOf(f);
    e.(config := c, configStage := Got,
       spaScale := if e.spaScale == Undefined then ScaleOfBit(c.temperatureScale) else e.spaScale)
  }

  /** The fault-log entry `decodeFault` assigns field by field, each field cut to its
      bit-field width and the message looked up from the truncated code. */
  function FaultEntry(f: seq<byte>): (entry: FaultLog)
  {
    var code := Low6(At(f, 7));
    FaultLog(Low5(At(f, 5)), Low5(At(f, 6)), code, FaultMessage(code),
             At(f, 8) as nat, Low5(At(f, 9)), Low6(At(f, 10)))
  }

  /** `decodeFault`: the entry, each field the telegram's byte cut to its width and the
      message that of the six-bit code, and the fault-log stage Got; nothing else changes. */
  function DecodeFault(e: Engine, f: seq<byte>): (r: Engine)
    ensures r.faultStage == Got
    ensures var log := r.faultLog;
      && log.faultCode == At(f, 7) as nat % 64
      && log.faultMessage == FaultMessage(log.faultCode)
      && log.totalEntries == At(f, 5) as nat % 32 && log.currentEntry == At(f, 6) as nat % 32
      && log.daysAgo == At(f, 8) as nat
      && log.hour == At(f, 9) as nat % 32 && log.minutes == At(f, 10) as nat % 64
    ensures r.(faultLog := e.faultLog, faultStage := e.faultStage) == e
  {
    LowBitsMod(At(f, 5));
    LowBitsMod(At(f, 6));
    LowBitsMod(At(f, 7));
    LowBitsMod(At(f, 9));
    LowBitsMod(At(f, 10));
    e.(faultLog := FaultEntry(f), faultStage := Got)
  }

  /** The filter settings `decodeFilterSettings` assigns field by field: both windows,
      filter 2's enable flag from bit 7 of its start hour. */
  function FilterSettingsOf(f: seq<byte>): (fs: FilterSettings)
  {
    var b9 := At(f, 9);
    FilterSettings(
      Low5(At(f, 5)), Low6(At(f, 6)), Low5(At(f, 7)), Low6(At(f, 8)),
      BitRead(b9, 7), Low5(b9), Low6(At(f, 10)), Low5(At(f, 11)), Low6(At(f, 12)))
  }

  /** The filter settings `fs` as `decodeFilterSettings` reads them from `f`: filter 1's
      window in bytes 5 to 8, filter 2's enable flag in bit 7 of byte 9, its start hour in
      the low five bits of that byte and the rest of its window in bytes 10 to 12, every
      field cut to its bit-field width. */
  predicate FilterFields(fs: FilterSettings, f: seq<byte>)
  {
    && fs.filter1Hour == At(f, 5) as nat % 32 && fs.filter1Minute == At(f, 6) as nat % 64
    && fs.filter1DurationHour == At(f, 7) as nat % 32
    && fs.filter1DurationMinute == At(f, 8) as nat % 64
    && fs.filter2Enable == At(f, 9) as nat / 128
    && fs.filter2Hour == At(f, 9) as nat % 32 && fs.filter2Minute == At(f, 10) as nat % 64
    && fs.filter2DurationHour == At(f, 11) as nat % 32
    && fs.filter2DurationMinute == At(f, 12) as nat % 64
  }

  /** `decodeFilterSettings`: the settings, filter 2's enable flag from bit 7 of byte 9 and
      its start hour from the low five bits of that byte, and the filter stage Got; nothing
      else changes. */
  function DecodeFilterSettings(e: Engine, f: seq<byte>): (r: Engine)
    ensures r.filterStage == Got
    ensures FilterFields(r.filters, f)
    ensures r.(filters := e.filters, filterStage := e.filterStage) == e
  {
    EnableBit(At(f, 9));
    LowBitsMod(At(f, 5));
    LowBitsMod(At(f, 6));
    LowBitsMod(At(f, 7));
    LowBitsMod(At(f, 8));
    LowBitsMod(At(f, 10));
    LowBitsMod(At(f, 11));
    LowBitsMod(At(f, 12));
    e.(filters := FilterSettingsOf(f), filterStage := Got)
  }

  /** A temperature field keeps its previous value unless a new reading was decoded. */
  function Refresh(previous: Option<real>, reading: Option<real>): Option<real>
  {
    if reading.Some? then reading else previous
  }

  /** The clock guard of `decodeState`: the clock is rewritten only when it differs from the
      stored one. Whichever way the guard goes, the clock ends up as the received bytes cut
      to their bit-field widths, since when the guard fails they already are those values. */
  function ClockGuard(s: SpaStateValue, hour: byte, minute: byte): (c: SpaStateValue)
    ensures c.hour == hour as nat % 32 && c.minutes == minute as nat % 64
    ensures Track1(c) == Track1(s) && Track2(c) == Track2(s)
  {
    LowBitsMod(hour);
    LowBitsMod(minute);
    if hour as nat != s.hour || minute as nat != s.minutes
    then s.(hour := Low5(hour), minutes := Low6(minute))
    else s
  }

  /** The status fields of `decodeState` before the filter tracker runs: the clock through its
      guard, then the readings and flags; the filter bookkeeping is left for the tracker. */
  function StatusFields(s: SpaStateValue, spaScale: TempScale, displayScale: TempScale,
                        f: seq<byte>): (st: SpaStateValue)
    ensures st.hour == At(f, 8) as nat % 32 && st.minutes == At(f, 9) as nat % 64
    ensures Track1(st) == Track1(s) && Track2(st) == Track2(s)
  {
    var clock := ClockGuard(s, At(f, 8), At(f, 9));
    var r := StatusReadings(clock, s, spaScale, displayScale, f);
    assert r.hour == clock.hour && r.minutes == clock.minutes;
    assert Track1(r) == Track1(clock) && Track2(r) == Track2(clock);
    r
  }

  /** The flags of a status telegram: the rest mode is byte 10; the heater and the
      temperature range are bits 4 and 2 of byte 15; the four jets are bits 1, 3, 5 and 7 of
      byte 16, pump 1 its low two bits and pump 2 its bits 3 and 4, pump 3 off; circulation
      and blower are bits 1 and 2 of byte 18; the light is on exactly when byte 19 is 3. */
  lemma StatusFlags(s: SpaStateValue, spaScale: TempScale, displayScale: TempScale, f: seq<byte>)
    ensures var st := StatusFields(s, spaScale, displayScale, f);
      && st.restMode == At(f, 10) as nat
      && st.heatState == BitRead(At(f, 15), 4) && st.highrange == BitRead(At(f, 15), 2)
      && st.jet1 == BitRead(At(f, 16), 1) && st.jet2 == BitRead(At(f, 16), 3)
      && st.jet3 == BitRead(At(f, 16), 5) && st.jet4 == BitRead(At(f, 16), 7)
      && AsByte(st.pump1) == At(f, 16) & 0x03
      && AsByte(st.pump2) == (At(f, 16) & 0x18) >> 3 && st.pump3 == 0
      && st.circulation == BitRead(At(f, 18), 1) && st.blower == BitRead(At(f, 18), 2)
      && st.light == (if At(f, 19) == 0x03 then 1 else 0)
  {
    PumpMasks(At(f, 16));
  }

  /** Both pump fields of byte 16 fit in two bits. */
  lemma PumpMasks(v: byte)
    ensures v & 0x03 < 4 && (v & 0x18) >> 3 < 4
  {
  }

  /** The readings and flags of a status telegram written over `clock`: temperatures through
      `Refresh` against the previous state `s`, the heater, range, jet, pump, circulation,
      blower and light bits. */
  function StatusReadings(clock: SpaStateValue, s: SpaStateValue, spaScale: TempScale,
                          displayScale: TempScale, f: seq<byte>): SpaStateValue
  {
    var target := DecodeTemp(spaScale, displayScale, At(f, 25));
    var current := DecodeTemp(spaScale, displayScale, At(f, 7));
    var b15 := At(f, 15);
    var b16 := At(f, 16);
    var b18 := At(f, 18);
    clock.(targetTemp := Refresh(s.targetTemp, target),
           currentTemp := Refresh(s.currentTemp, current),
           restMode := At(f, 10) as nat,
           heatState := BitRead(b15, 4),
           highrange := BitRead(b15, 2),
           jet1 := BitRead(b16, 1), jet2 := BitRead(b16, 3),
           jet3 := BitRead(b16, 5), jet4 := BitRead(b16, 7),
           circulation := BitRead(b18, 1), blower := BitRead(b18, 2),
           light := if At(f, 19) == 0x03 then 1 else 0,
           pump1 := TwoBits(b16 & 0x03), pump2 := TwoBits((b16 & 0x18) >> 3), pump3 := 0)
  }

  /** `decodeState` at clock `now`: the status fields, then the filter tracker; the clock
      bytes are also kept as the pending time, and the telegram's checksum becomes the one
      the change-detection gate compares against. */
  function DecodeState(e: Engine, f: seq<byte>, now: u32): (r: Engine)
    ensures r.(state := e.state, targetHour := e.targetHour, targetMinute := e.targetMinute,
               lastStateCrc := e.lastStateCrc) == e
    ensures r.lastStateCrc == FrameCrc(f)
    ensures r.targetHour == At(f, 8) && r.targetMinute == At(f, 9)
    ensures var st := StatusFields(e.state, e.spaScale, e.displayScale, f);
      && r.state.filter1Running == ShouldRun1(st, e.filters)
      && r.state.filter2Running == ShouldRun2(st, e.filters)
  {
    var st := StatusFields(e.state, e.spaScale, e.displayScale, f);
    e.(state := UpdateFilterStatus(st, e.filters, now),
       targetHour := At(f, 8), targetMinute := At(f, 9),
       lastStateCrc := At(f, At(f, 1) as int))
  }

  // ---------------------------------------------------------------------------
  // Dispatch of an accepted telegram.

  /** The checksum byte of a telegram, the one its length byte points at. */
  function FrameCrc(f: seq<byte>): byte
  {
    At(f, At(f, 1) as int)
  }

  /** The id the controller grants, clamped to the driver's maximum. */
  function GrantedId(v: byte): (id: byte)
    ensures id <= MAX_CLIENT_ID
    ensures v <= MAX_CLIENT_ID ==> id == v
  {
    if v > MAX_CLIENT_ID then MAX_CLIENT_ID else v
  }

  /** Unregistered: an id grant (FE .. 02) is kept and acknowledged; a new-client query
      (FE .. 00) is answered with an id request. */
  function Unregistered(e: Engine, f: seq<byte>): (r: Engine)
    ensures r.(clientId := e.clientId, written := e.written) == e
    ensures r.clientId == e.clientId || r.clientId == GrantedId(At(f, 5))
    ensures e.written <= r.written
  {
    var grant := At(f, 2) == UNREGISTERED && At(f, 4) == ID_ASSIGNED;
    var query := At(f, 2) == UNREGISTERED && At(f, 4) == NEW_CLIENT_QUERY;
    var id := if grant then GrantedId(At(f, 5)) else e.clientId;
    var acknowledged := if grant then e.written + Frame(IdAck(id)) else e.written;
    e.(clientId := id,
       written := if query then acknowledged + Frame(ID_REQUEST) else acknowledged)
  }

  /** Runs `decode` only when the telegram's checksum differs from the last status checksum. */
  function Gated(e: Engine, f: seq<byte>, decoded: Engine): Engine
  {
    if e.lastStateCrc != FrameCrc(f) then decoded else e
  }

  /** Where the completion branch of `read_serial` sends a telegram. */
  datatype Route = Registration | ClearToSendRoute | SettingsRoute | FaultRoute | StatusRoute
                 | FiltersRoute | Ignored

  /** The branch chain on the client id, the destination byte 2 and the type byte 4. */
  function RouteOf(clientId: byte, f: seq<byte>): (route: Route)
    ensures route == Registration <==> clientId == 0
    ensures route == ClearToSendRoute ==> At(f, 2) == clientId && At(f, 4) == CLEAR_TO_SEND
    ensures route == SettingsRoute ==> At(f, 2) == clientId && At(f, 4) == CONFIGURATION
    ensures route == FaultRoute ==> At(f, 2) == clientId && At(f, 4) == FAULT_LOG
    ensures route == StatusRoute ==> At(f, 2) == BROADCAST && At(f, 4) == STATUS_UPDATE
    ensures route == FiltersRoute ==> At(f, 2) == clientId && At(f, 4) == FILTER_CONFIG
    ensures clientId != 0 && At(f, 2) == clientId && At(f, 4) == CLEAR_TO_SEND ==>
      route == ClearToSendRoute
    ensures clientId !in {0, BROADCAST} && At(f, 2) == BROADCAST && At(f, 4) == STATUS_UPDATE ==>
      route == StatusRoute
  {
    var dest := At(f, 2);
    var kind := At(f, 4);
    if clientId == 0 then Registration
    else if dest == clientId && kind == CLEAR_TO_SEND then ClearToSendRoute
    else if dest == clientId && kind == CONFIGURATION then SettingsRoute
    else if dest == clientId && kind == FAULT_LOG then FaultRoute
    else if dest == BROADCAST && kind == STATUS_UPDATE then StatusRoute
    else if dest == clientId && kind == FILTER_CONFIG then FiltersRoute
    else Ignored
  }

  /** The decoders leave the input queue, the reception and request times, the output, the
      client id and the display scale alone; only the status decoder writes the last status
      checksum, and it writes the telegram's own; each of the others moves its own request
      stage only. */
  lemma DecodersScope(e: Engine, f: seq<byte>, now: u32)
    ensures var r := DecodeSettings(e, f);
      && r.inQ == e.inQ && r.lastReceivedTime == e.lastReceivedTime
      && r.lastFilterRequest == e.lastFilterRequest && r.written == e.written
      && r.clientId == e.clientId && r.displayScale == e.displayScale && r.lastStateCrc == e.lastStateCrc
      && r.faultStage == e.faultStage && r.filterStage == e.filterStage
    ensures var r := DecodeFault(e, f);
      && r.inQ == e.inQ && r.lastReceivedTime == e.lastReceivedTime
      && r.lastFilterRequest == e.lastFilterRequest && r.written == e.written
      && r.clientId == e.clientId && r.displayScale == e.displayScale && r.lastStateCrc == e.lastStateCrc
      && r.configStage == e.configStage && r.filterStage == e.filterStage
    ensures var r := DecodeFilterSettings(e, f);
      && r.inQ == e.inQ && r.lastReceivedTime == e.lastReceivedTime
      && r.lastFilterRequest == e.lastFilterRequest && r.written == e.written
      && r.clientId == e.clientId && r.displayScale == e.displayScale && r.lastStateCrc == e.lastStateCrc
      && r.configStage == e.configStage && r.faultStage == e.faultStage
    ensures var r := DecodeState(e, f, now);
      && r.inQ == e.inQ && r.lastReceivedTime == e.lastReceivedTime
      && r.lastFilterRequest == e.lastFilterRequest && r.written == e.written
      && r.clientId == e.clientId && r.displayScale == e.displayScale && r.lastStateCrc == FrameCrc(f)
      && r.configStage == e.configStage && r.faultStage == e.faultStage
      && r.filterStage == e.filterStage
  {
  }

  /** The body of the completion branch of `read_serial` for an accepted telegram `f`. */
  function Dispatch(e: Engine, f: seq<byte>, now: u32): (r: Engine)
    ensures r.inQ == e.inQ && r.lastReceivedTime == e.lastReceivedTime
    ensures r.lastFilterRequest == e.lastFilterRequest
    ensures e.written <= r.written
    ensures RouteOf(e.clientId, f) == Ignored ==> r == e
  {
    DecodersScope(e, f, now);
    match RouteOf(e.clientId, f)
    case Registration => Unregistered(e, f)
    case ClearToSendRoute => ClearToSend(e)
    case SettingsRoute => Gated(e, f, DecodeSettings(e, f))
    case FaultRoute => Gated(e, f, DecodeFault(e, f))
    case StatusRoute => Gated(e, f, DecodeState(e, f, now))
    case FiltersRoute => Gated(e, f, DecodeFilterSettings(e, f))
    case Ignored => e
  }

  // ---------------------------------------------------------------------------
  // Receiving.

  /** `read_serial` for the received byte `b` at clock `now`. An accepted telegram is
      dispatched while the input queue still holds it, and the queue is cleared afterwards.
      The reception time is taken when the byte was stored or a telegram was accepted; the
      early returns (dropped, doubled delimiter, checksum mismatch) leave it alone. */
  function ReadSerial(e: Engine, b: byte, now: u32): (r: Engine)
    ensures r.inQ == Receive(e.inQ, b).queue
    ensures r.lastReceivedTime == now || r.lastReceivedTime == e.lastReceivedTime
    ensures r.lastFilterRequest == e.lastFilterRequest
    ensures e.written <= r.written
  {
    var step := Receive(e.inQ, b);
    if step.outcome.Accepted? then
      var f := step.outcome.frame;
      Dispatch(e.(inQ := f), f, now).(inQ := [], lastReceivedTime := now)
    else
      e.(inQ := step.queue,
         lastReceivedTime := if step.outcome == Stored then now else e.lastReceivedTime)
  }

  /** The bytes available in one tick, read one after the other: the input queue follows the
      reassembler, and nothing written is taken back. */
  function Drain(e: Engine, rx: seq<byte>, now: u32): (r: Engine)
    ensures r.inQ == Feed(e.inQ, rx)
    ensures r.lastFilterRequest == e.lastFilterRequest
    ensures e.written <= r.written
  {
    if rx == [] then e else ReadSerial(Drain(e, rx[..|rx| - 1], now), rx[|rx| - 1], now)
  }

  /** The liveness test and the periodic filter request of `update`. More than ten seconds
      of silence after something was received drops the id and raises the error; otherwise
      the error is cleared and the id kept. The filter request is due after more than a
      minute; nothing is written unless it is due and the client (after the liveness test)
      has an id, and the time of the request is kept either way. Nothing else changes. */
  function Tick(e: Engine, now: u32): (r: Engine)
    ensures var silent := e.lastReceivedTime > 0 && Sub32(now, e.lastReceivedTime) > 10000;
      && (silent ==> r.clientId == 0 && r.communicationError && !IsCommunicating(r))
      && (!silent ==> r.clientId == e.clientId && !r.communicationError)
    ensures r.lastFilterRequest
            == if Sub32(now, e.lastFilterRequest) > 60000 then now else e.lastFilterRequest
    ensures r.clientId == 0 || Sub32(now, e.lastFilterRequest) <= 60000 ==> r.written == e.written
    ensures r.(communicationError := e.communicationError, clientId := e.clientId,
               written := e.written, lastFilterRequest := e.lastFilterRequest) == e
  {
    var timedOut := e.lastReceivedTime > 0
                    && Sub32(now, e.lastReceivedTime) > COMMUNICATION_TIMEOUT_MS;
    var due := Sub32(now, e.lastFilterRequest) > FILTER_SETTINGS_REQUEST_INTERVAL_MS;
    Ticked(e, timedOut, due, now)
  }

  /** The engine after the liveness test has found `timedOut` and the periodic filter
      request `due`. */
  function Ticked(e: Engine, timedOut: bool, due: bool, now: u32): Engine
  {
    var id := if timedOut then 0 else e.clientId;
    e.(communicationError := timedOut,
       clientId := id,
       written := if due && id != 0 then e.written + Frame(FilterRequest(id)) else e.written,
       lastFilterRequest := if due then now else e.lastFilterRequest)
  }

  /** `update` at clock `now` with the bytes `rx` waiting on the bus. */
  function Update(e: Engine, now: u32, rx: seq<byte>): (r: Engine)
    ensures r.inQ == Feed(e.inQ, rx)
    ensures e.written <= r.written
    ensures r.lastFilterRequest
            == if Sub32(now, e.lastFilterRequest) > FILTER_SETTINGS_REQUEST_INTERVAL_MS
               then now else e.lastFilterRequest
  {
    Drain(Tick(e, now), rx, now)
  }

  function IsCommunicating(e: Engine): (r: bool)
    ensures r <==> e.clientId != 0
  {
    e.clientId != 0
  }

  // ---------------------------------------------------------------------------
  // Commands.

  /** `set_temp`: a set-point is accepted exactly when it is within the display scale's
      limits and the spa scale is known; it is then converted to a spa byte and marked
      pending, and nothing else changes. */
  function SetTemp(e: Engine, temp: real): (r: Engine)
    ensures var accepted := e.spaScale != Undefined
                            && ((e.displayScale == C && InCelsiusRange(temp))
                                || (e.displayScale == F && InFahrenheitRange(temp)));
      && (!accepted ==> r == e)
      && (accepted ==> r.sendCommand == SET_TEMPERATURE
                       && Some(r.targetTemperature) == EncodeTarget(e.displayScale, e.spaScale, temp)
                       && r.(targetTemperature := e.targetTemperature, sendCommand := e.sendCommand) == e)
  {
    match EncodeTarget(e.displayScale, e.spaScale, temp)
    case None => e
    case Some(v) => e.(targetTemperature := v, sendCommand := SET_TEMPERATURE)
  }

  /** `set_hour` and `set_minute` accept only a clock value and then mark the time pending;
      anything else changes nothing. */
  function SetHour(e: Engine, hour: int): (r: Engine)
    ensures !(0 <= hour <= 23) ==> r == e
    ensures 0 <= hour <= 23 ==>
      && r.targetHour as int == hour && r.sendCommand == SET_TIME
      && r.(targetHour := e.targetHour, sendCommand := e.sendCommand) == e
  {
    if 0 <= hour <= 23 then
      ByteOfNat(hour);
      e.(targetHour := hour as byte, sendCommand := SET_TIME)
    else e
  }

  function SetMinute(e: Engine, minute: int): (r: Engine)
    ensures !(0 <= minute <= 59) ==> r == e
    ensures 0 <= minute <= 59 ==>
      && r.targetMinute as int == minute && r.sendCommand == SET_TIME
      && r.(targetMinute := e.targetMinute, sendCommand := e.sendCommand) == e
  {
    if 0 <= minute <= 59 then
      ByteOfNat(minute);
      e.(targetMinute := minute as byte, sendCommand := SET_TIME)
    else e
  }

  /** The toggles each overwrite the pending command with their code, which the next
      clear-to-send sends as a toggle telegram. */
  function Command(e: Engine, code: byte): (r: Engine)
    ensures r.sendCommand == code && r.(sendCommand := e.sendCommand) == e
    ensures code !in {NO_COMMAND, SET_TIME, SET_TEMPERATURE} ==>
      ReplyPayload(r, ChooseReply(r)) == [e.clientId, CLIENT_TAG, 0x11, code, 0x00]
  {
    e.(sendCommand := code)
  }

  /** `set_highrange`: the range is toggled only when it differs from the reported one. */
  function SetHighrange(e: Engine, high: bool): (r: Engine)
    ensures high == (e.state.highrange == 1) ==> r == e
    ensures high != (e.state.highrange == 1) ==> r == e.(sendCommand := TOGGLE_HIGHRANGE)
  {
    if (if high then 1 else 0) != e.state.highrange then e.(sendCommand := TOGGLE_HIGHRANGE) else e
  }

  /** The schedule a filter setter accepts: hours up to 23, minutes up to 55 in steps of 5. */
  predicate ValidSchedule(startHour: byte, startMinute: byte, durationHour: byte, durationMinute: byte)
  {
    startHour <= 23 && startMinute <= 55 && durationHour <= 23 && durationMinute <= 55
    && startMinute % 5 == 0 && durationMinute % 5 == 0
  }

  /** The filter-configuration telegram carrying both windows; filter 2's start hour has its
      enable flag in bit 7. */
  function ScheduleTelegram(id: byte, fs: FilterSettings): (p: seq<byte>)
  {
    [id, CLIENT_TAG, 0x22, 0x01,
     AsByte(fs.filter1Hour), AsByte(fs.filter1Minute),
     AsByte(fs.filter1DurationHour), AsByte(fs.filter1DurationMinute),
     AsByte(fs.filter2Hour + 128 * fs.filter2Enable), AsByte(fs.filter2Minute),
     AsByte(fs.filter2DurationHour), AsByte(fs.filter2DurationMinute)]
  }

  /** `set_filter1_schedule` and `set_filter2_schedule`: a valid window is stored and, when
      the client has an id, sent together with the other filter's window. */
  function SetFilterSchedule(e: Engine, second: bool, startHour: byte, startMinute: byte,
                             durationHour: byte, durationMinute: byte): (r: Engine)
    ensures !ValidSchedule(startHour, startMinute, durationHour, durationMinute) ==> r == e
    ensures ValidSchedule(startHour, startMinute, durationHour, durationMinute) && e.clientId != 0 ==>
      r.written == e.written + Frame(ScheduleTelegram(e.clientId, r.filters))
    ensures e.clientId == 0 ==> r.written == e.written
    ensures r.(filters := e.filters, written := e.written) == e
  {
    var valid := ValidSchedule(startHour, startMinute, durationHour, durationMinute);
    var f := e.filters;
    var fs :=
      if !valid then f
      else if second then
        f.(filter2Hour := startHour as nat, filter2Minute := startMinute as nat,
           filter2DurationHour := durationHour as nat, filter2DurationMinute := durationMinute as nat)
      else
        f.(filter1Hour := startHour as nat, filter1Minute := startMinute as nat,
           filter1DurationHour := durationHour as nat, filter1DurationMinute := durationMinute as nat);
    e.(filters := fs,
       written := if valid && e.clientId != 0 then e.written + Frame(ScheduleTelegram(e.clientId, fs))
                  else e.written)
  }

  /** `request_filter_settings`: a registered client asks for the filter settings; an
      unregistered one sends nothing. */
  function RequestFilterSettings(e: Engine): (r: Engine)
    ensures e.clientId == 0 ==> r == e
    ensures e.clientId != 0 ==> r.written == e.written + Frame([e.clientId, 0xBF, 0x22, 0x01, 0x00, 0x00])
    ensures r.(written := e.written) == e
  {
    e.(written := if e.clientId != 0 then e.written + Frame(FilterRequest(e.clientId)) else e.written)
  }

  /** `reset_filter_runtime` and `reset_filter_cycles` for filter 1 or 2; any other
      number changes nothing. */
  function ResetFilterRuntime(e: Engine, filter: byte): (r: Engine)
    ensures filter !in {1, 2} ==> r == e
    ensures filter == 1 ==> r == e.(state := e.state.(filter1RuntimeHours := 0))
    ensures filter == 2 ==> r == e.(state := e.state.(filter2RuntimeHours := 0))
  {
    if filter == 1 then e.(state := e.state.(filter1RuntimeHours := 0))
    else if filter == 2 then e.(state := e.state.(filter2RuntimeHours := 0))
    else e
  }

  function ResetFilterCycles(e: Engine, filter: byte): (r: Engine)
    ensures filter !in {1, 2} ==> r == e
    ensures filter == 1 ==> r == e.(state := e.state.(filter1CyclesCompleted := 0))
    ensures filter == 2 ==> r == e.(state := e.state.(filter2CyclesCompleted := 0))
  {
    if filter == 1 then e.(state := e.state.(filter1CyclesCompleted := 0))
    else if filter == 2 then e.(state := e.state.(filter2CyclesCompleted := 0))
    else e
  }

  /** `set_spa_temp_scale`: a spa scale set this way is not overridden by the scale bit of a
      later configuration telegram. */
  function SetSpaTempScale(e: Engine, scale: TempScale): (r: Engine)
    ensures r.spaScale == scale && r.(spaScale := e.spaScale) == e
    ensures scale != Undefined ==> forall f :: DecodeSettings(r, f).spaScale == scale
  {
    e.(spaScale := scale)
  }

  /** `set_esphome_temp_scale`: the scale set-points are given in and readings shown in. */
  function SetDisplayTempScale(e: Engine, scale: TempScale): (r: Engine)
    ensures r.displayScale == scale && r.(displayScale := e.displayScale) == e
  {
    e.(displayScale := scale)
  }
}
