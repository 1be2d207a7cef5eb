/** The `BalboaSpa` component object: its queues, its bus bookkeeping and the records it
    decodes into, updated in place by its entry points. Most methods are proved against the
    engine function of the same name: `Abstract()` after the call is that function of
    `Abstract()` before it. `IdRequest` and `IdAck` are proved against `Frame`, `AcceptId`
    against `GrantedId`, `HandleTelegram` and `HandleRecord` against `Dispatch`, `Toggle`
    against `Command`, `ReplyToClearToSend` against `ClearToSend`, `FinishTelegram` against
    `Dispatch`, the two filter-schedule setters against `SetFilterSchedule`, and the
    helpers `StoreSchedule`, `SendReply` and `ChooseTelegram` state their effect directly. */
module Balboa {
  import opened Bytes
  import opened CircularBuffer
  import opened Crc
  import opened Framing
  import opened SpaTypes
  import opened SpaStates
  import opened Temperature
  import opened Filters
  import opened Protocol

  class BalboaSpa {
    const inputQueue: ByteQueue
    const outputQueue: ByteQueue
    /** Everything written to the UART so far. */
    var written: seq<byte>
    var lastStateCrc: byte
    var sendCommand: byte
    var targetTemperature: byte
    var targetHour: byte
    var targetMinute: byte
    var clientId: byte
    var lastReceivedTime: u32
    var lastFilterRequest: u32
    /** The component's error status. */
    var communicationError: bool
    var spaTempScale: TempScale
    var displayTempScale: TempScale
    var configStage: Stage
    var faultStage: Stage
    var filterStage: Stage
    var spaConfig: SpaConfig
    var spaState: SpaStateValue
    var spaFaultLog: FaultLog
    var spaFilterSettings: FilterSettings

    /** Two distinct queues of capacity 100, the output queue empty between entry points,
        and the engine invariant. */
    predicate Valid()
      reads this, inputQueue, outputQueue
    {
      && inputQueue != outputQueue
      && inputQueue.maxSize == QUEUE_SIZE && outputQueue.maxSize == QUEUE_SIZE
      && outputQueue.items == []
      && |inputQueue.items| <= QUEUE_SIZE + 1
      && clientId <= MAX_CLIENT_ID
    }

    /** The engine this object holds. */
    function Abstract(): (e: Engine)
      reads this, inputQueue
      ensures e.inQ == inputQueue.items && e.written == written && e.clientId == clientId
    {
      Engine(inputQueue.items, written, clientId, sendCommand, targetTemperature, targetHour,
             targetMinute, lastStateCrc, lastReceivedTime, lastFilterRequest, communicationError,
             spaTempScale, displayTempScale, configStage, faultStage, filterStage, spaConfig,
             spaState, spaFaultLog, spaFilterSettings)
    }

    /** A new object holds the member initialisers. */
    constructor ()
      ensures Valid() && fresh(inputQueue) && fresh(outputQueue)
      ensures Abstract() == INITIAL_ENGINE
    {
      inputQueue := new ByteQueue(QUEUE_SIZE);
      outputQueue := new ByteQueue(QUEUE_SIZE);
      written := [];
      lastStateCrc, sendCommand, targetTemperature, targetHour, targetMinute := 0, 0, 0, 0, 0;
      clientId := 0;
      lastReceivedTime, lastFilterRequest := 0, 0;
      communicationError := false;
      spaTempScale, displayTempScale := Undefined, C;
      configStage, faultStage, filterStage := Want, Want, Want;
      spaConfig, spaFaultLog, spaFilterSettings := NO_CONFIG, NO_FAULT_LOG, NO_FILTER_SETTINGS;
      spaState := INITIAL;
    }

    method Setup()
      requires Valid()
      modifies this, inputQueue, outputQueue
      ensures Valid()
      ensures Abstract() == Protocol.Setup(old(Abstract()))
    {
      inputQueue.Clear();
      outputQueue.Clear();
      lastReceivedTime, lastFilterRequest, clientId, sendCommand := 0, 0, 0, NO_COMMAND;
      configStage, faultStage, filterStage, lastStateCrc := Want, Want, Want, 0;
    }

    // -------------------------------------------------------------------------
    // Sending.

    /** `ID_request`. */
    method IdRequest()
      requires Valid()
      modifies this`written, outputQueue
      ensures Valid() && written == old(written) + Frame(ID_REQUEST)
      ensures Abstract() == old(Abstract()).(written := written)
    {
      ghost var e := Abstract();
      var ok := outputQueue.Push(UNREGISTERED);
      ok := outputQueue.Push(CLIENT_TAG);
      ok := outputQueue.Push(0x01);
      ok := outputQueue.Push(0x02);
      ok := outputQueue.Push(0xF1);
      ok := outputQueue.Push(0x73);
      assert outputQueue.items == ID_REQUEST;
      var wire := Rs485Send(outputQueue);
      written := written + wire;
      assert Abstract() == e.(written := written);
    }

    /** `ID_ack`, with the id just stored. */
    method IdAck()
      requires Valid()
      modifies this`written, outputQueue
      ensures Valid() && written == old(written) + Frame(Protocol.IdAck(clientId))
    {
      var ok := outputQueue.Push(clientId);
      ok := outputQueue.Push(CLIENT_TAG);
      ok := outputQueue.Push(0x03);
      assert outputQueue.items == Protocol.IdAck(clientId);
      var wire := Rs485Send(outputQueue);
      written := written + wire;
    }

    // -------------------------------------------------------------------------
    // Polling and receiving.

    /** `update` at clock `now`, with the bytes `rx` waiting on the bus: the liveness test
        and the periodic filter request, then `read_serial` while a byte is available. */
    method Update(now: u32, rx: seq<byte>)
      requires Valid()
      modifies this, inputQueue, outputQueue
      ensures Valid()
      ensures Abstract() == Protocol.Update(old(Abstract()), now, rx)
    {
      Tick(now);
      ghost var ticked := Abstract();
      var i := 0;
      while i < |rx|
        invariant Valid() && 0 <= i <= |rx|
        invariant Abstract() == Drain(ticked, rx[..i], now)
      {
        ReadSerial(rx[i], now);
        assert rx[..i + 1][..i] == rx[..i];
        i := i + 1;
      }
      assert rx[..i] == rx;
    }

    /** The head of `update`: silence longer than the timeout marks the bus dead and drops
        the client id, otherwise the error is cleared; once the request period has passed,
        the filter settings are asked for (when registered) and the time is noted. */
    method Tick(now: u32)
      requires Valid()
      modifies this`communicationError, this`clientId, this`written, this`lastFilterRequest
      modifies outputQueue
      ensures Valid()
      ensures Abstract() == Protocol.Tick(old(Abstract()), now)
    {
      if lastReceivedTime > 0 && Sub32(now, lastReceivedTime) > COMMUNICATION_TIMEOUT_MS {
        communicationError, clientId := true, 0;
      } else {
        communicationError := false;
      }
      if Sub32(now, lastFilterRequest) > FILTER_SETTINGS_REQUEST_INTERVAL_MS {
        RequestFilterSettings();
        lastFilterRequest := now;
      }
    }

    /** `read_serial` for the received byte `b` at clock `now`: the reassembler step, then,
        for an accepted telegram, its dispatch. The reception time is taken on the paths
        that do not return early. */
    method ReadSerial(b: byte, now: u32)
      requires Valid()
      modifies this, inputQueue, outputQueue
      ensures Valid()
      ensures Abstract() == Protocol.ReadSerial(old(Abstract()), b, now)
    {
      ghost var e := Abstract();
      var outcome := ReceiveByte(inputQueue, b);
      if outcome.Accepted? {
        assert Abstract() == e.(inQ := outcome.frame);
        FinishTelegram(now);
      } else if outcome == Stored {
        lastReceivedTime := now;
      }
    }

    /** The completion branch of `read_serial` after the checksum test: the telegram held in
        the input queue is dispatched, the queue is cleared and the reception time taken. */
    method FinishTelegram(now: u32)
      requires Valid()
      modifies this, inputQueue, outputQueue
      ensures Valid()
      ensures Abstract() == Dispatch(old(Abstract()), old(inputQueue.items), now)
                              .(inQ := [], lastReceivedTime := now)
    {
      HandleTelegram(now);
      inputQueue.Clear();
      lastReceivedTime := now;
    }

    /** The branch chain on an accepted telegram: registration while the client has no id,
        the clear-to-send reply, or one of the record branches. */
    method HandleTelegram(now: u32)
      requires Valid()
      modifies this, outputQueue
      ensures Valid()
      ensures Abstract() == Dispatch(old(Abstract()), inputQueue.items, now)
    {
      var f := inputQueue.items;
      if clientId == 0 {
        Unregistered();
      } else if At(f, 2) == clientId && At(f, 4) == CLEAR_TO_SEND {
        ReplyToClearToSend();
      } else {
        HandleRecord(now);
      }
    }

    /** The unregistered branch: an id grant is clamped to the driver's maximum and
        acknowledged; a new-client query is answered with an id request. */
    method Unregistered()
      requires Valid()
      modifies this`clientId, this`written, outputQueue
      ensures Valid()
      ensures Abstract() == Protocol.Unregistered(old(Abstract()), inputQueue.items)
    {
      var f := inputQueue.items;
      if At(f, 2) == UNREGISTERED && At(f, 4) == ID_ASSIGNED {
        AcceptId(At(f, 5));
      }
      if At(f, 2) == UNREGISTERED && At(f, 4) == NEW_CLIENT_QUERY {
        IdRequest();
      }
    }

    /** The id grant: the offered id `v` is stored, clamped to the driver's maximum, and
        acknowledged. */
    method AcceptId(v: byte)
      requires Valid()
      modifies this`clientId, this`written, outputQueue
      ensures Valid() && clientId == GrantedId(v)
      ensures written == old(written) + Frame(Protocol.IdAck(clientId))
      ensures Abstract() == old(Abstract()).(clientId := clientId, written := written)
    {
      clientId := v;
      if clientId > MAX_CLIENT_ID {
        clientId := MAX_CLIENT_ID;
      }
      IdAck();
    }

    /** The record branches of a registered client: each decoder runs only when the
        telegram's checksum differs from the last status checksum. */
    method HandleRecord(now: u32)
      requires clientId != 0
      requires !(At(inputQueue.items, 2) == clientId && At(inputQueue.items, 4) == CLEAR_TO_SEND)
      modifies this`spaConfig, this`configStage, this`spaTempScale, this`spaFaultLog
      modifies this`faultStage, this`spaFilterSettings, this`filterStage, this`spaState
      modifies this`targetHour, this`targetMinute, this`lastStateCrc
      ensures Abstract() == Dispatch(old(Abstract()), inputQueue.items, now)
    {
      var f := inputQueue.items;
      var dest, kind := At(f, 2), At(f, 4);
      var changed := lastStateCrc != At(f, At(f, 1) as int);
      if dest == clientId && kind == CONFIGURATION {
        if changed {
          DecodeSettings();
        }
      } else if dest == clientId && kind == FAULT_LOG {
        if changed {
          DecodeFault();
        }
      } else if dest == BROADCAST && kind == STATUS_UPDATE {
        if changed {
          DecodeState(now);
        }
      } else if dest == clientId && kind == FILTER_CONFIG {
        if changed {
          DecodeFilterSettings();
        }
      }
    }

    // -------------------------------------------------------------------------
    // Clear to send.

    /** The clear-to-send branch of `read_serial`: stage the one reply the priority chain
        picks, send it, and consume the pending command. */
    method ReplyToClearToSend()
      requires Valid()
      modifies this`written, this`configStage, this`faultStage, this`filterStage
      modifies this`sendCommand, outputQueue
      ensures Valid()
      ensures Abstract() == ClearToSend(old(Abstract()))
    {
      ghost var e := Abstract();
      var payload, config, fault, filter := ChooseTelegram();
      SendReply(payload, config, fault, filter);
      assert Abstract() == e.(written := e.written + Frame(payload), sendCommand := NO_COMMAND,
                              configStage := config, faultStage := fault, filterStage := filter);
    }

    /** The common tail of the clear-to-send branch: the chosen telegram is staged and sent,
        the request stages take their new values and the pending command is consumed. */
    method SendReply(payload: seq<byte>, config: Stage, fault: Stage, filter: Stage)
      requires Valid() && |payload| <= QUEUE_SIZE - 3
      modifies this`written, this`configStage, this`faultStage, this`filterStage
      modifies this`sendCommand, outputQueue
      ensures Valid()
      ensures written == old(written) + Frame(payload) && sendCommand == NO_COMMAND
      ensures configStage == config && faultStage == fault && filterStage == filter
    {
      var wire := SendTelegram(outputQueue, payload);
      written, configStage, faultStage, filterStage, sendCommand :=
        written + wire, config, fault, filter, NO_COMMAND;
    }

    /** The priority chain of the clear-to-send branch: a pending time or temperature setting,
        then (with nothing pending) the configuration, the fault log and, once the fault log is
        in, the filter settings, otherwise an empty reply; any other pending command is a
        toggle. Returns the telegram and the request stages with the one asked for now
        Requested. */
    method ChooseTelegram() returns (payload: seq<byte>, config: Stage, fault: Stage, filter: Stage)
      requires Valid()
      ensures payload == ReplyPayload(Abstract(), ChooseReply(Abstract()))
      ensures config == if ChooseReply(Abstract()) == AskConfig then Requested else configStage
      ensures fault == if ChooseReply(Abstract()) == AskFaultLog then Requested else faultStage
      ensures filter == if ChooseReply(Abstract()) == AskFilters then Requested else filterStage
    {
      config, fault, filter := configStage, faultStage, filterStage;
      if sendCommand == SET_TIME {
        payload := [clientId, CLIENT_TAG, 0x21, targetHour, targetMinute];
      } else if sendCommand == SET_TEMPERATURE {
        payload := [clientId, CLIENT_TAG, 0x20, targetTemperature];
      } else if sendCommand == NO_COMMAND {
        if configStage == Want {
          payload := ConfigRequest(clientId);
          config := Requested;
        } else if faultStage == Want {
          payload := FaultLogRequest(clientId);
          fault := Requested;
        } else if filterStage == Want && faultStage == Got {
          payload := FilterRequest(clientId);
          filter := Requested;
        } else {
          payload := [clientId, CLIENT_TAG, 0x07];
        }
      } else {
        payload := [clientId, CLIENT_TAG, 0x11, sendCommand, 0x00];
      }
    }

    // -------------------------------------------------------------------------
    // Commands.

    /** `set_temp`: a set-point within the display scale's limits is converted to the spa's
        scale and marked pending; anything else, or an undefined scale, changes nothing. */
    method SetTemp(temp: real)
      requires Valid()
      modifies this`targetTemperature, this`sendCommand
      ensures Valid()
      ensures Abstract() == Protocol.SetTemp(old(Abstract()), temp)
    {
      var target := EncodeTarget(displayTempScale, spaTempScale, temp);
      if target.Some? {
        targetTemperature, sendCommand := target.value, SET_TEMPERATURE;
      }
    }

    /** `set_highrange`. */
    method SetHighrange(high: bool)
      requires Valid()
      modifies this`sendCommand
      ensures Valid()
      ensures Abstract() == Protocol.SetHighrange(old(Abstract()), high)
    {
      if (if high then 1 else 0) != spaState.highrange {
        sendCommand := TOGGLE_HIGHRANGE;
      }
    }

    /** `set_hour`: only 0 to 23 is accepted. */
    method SetHour(hour: int)
      requires Valid()
      modifies this`targetHour, this`sendCommand
      ensures Valid()
      ensures Abstract() == Protocol.SetHour(old(Abstract()), hour)
    {
      if 0 <= hour <= 23 {
        targetHour, sendCommand := hour as byte, SET_TIME;
      }
    }

    /** `set_minute`: only 0 to 59 is accepted. */
    method SetMinute(minute: int)
      requires Valid()
      modifies this`targetMinute, this`sendCommand
      ensures Valid()
      ensures Abstract() == Protocol.SetMinute(old(Abstract()), minute)
    {
      if 0 <= minute <= 59 {
        targetMinute, sendCommand := minute as byte, SET_TIME;
      }
    }

    /** `toggle_light`, `toggle_jet1` to `toggle_jet4` and `toggle_blower`, each with its
        command code. */
    method Toggle(code: byte)
      requires code in {TOGGLE_LIGHT, TOGGLE_JET1, TOGGLE_JET2, TOGGLE_JET3, TOGGLE_JET4, TOGGLE_BLOWER}
      requires Valid()
      modifies this`sendCommand
      ensures Valid()
      ensures Abstract() == Command(old(Abstract()), code)
    {
      sendCommand := code;
    }

    /** `set_filter1_schedule`: a valid window is stored and, when the client has an id,
        sent with filter 2's window. */
    method SetFilter1Schedule(startHour: byte, startMinute: byte, durationHour: byte,
                              durationMinute: byte)
      requires Valid()
      modifies this`spaFilterSettings, this`written, outputQueue
      ensures Valid()
      ensures Abstract() == Protocol.SetFilterSchedule(old(Abstract()), false, startHour,
                                                        startMinute, durationHour, durationMinute)
    {
      if startHour > 23 || startMinute > 55 || durationHour > 23 || durationMinute > 55 {
        assert !ValidSchedule(startHour, startMinute, durationHour, durationMinute);
        return;
      }
      if startMinute % 5 != 0 || durationMinute % 5 != 0 {
        assert !ValidSchedule(startHour, startMinute, durationHour, durationMinute);
        return;
      }
      assert ValidSchedule(startHour, startMinute, durationHour, durationMinute);
      var fs := spaFilterSettings.(filter1Hour := startHour as nat,
                                   filter1Minute := startMinute as nat,
                                   filter1DurationHour := durationHour as nat,
                                   filter1DurationMinute := durationMinute as nat);
      ghost var e := Abstract();
      assert Protocol.SetFilterSchedule(e, false, startHour, startMinute, durationHour, durationMinute)
             == e.(filters := fs, written := if clientId != 0
                                            then written + Frame(ScheduleTelegram(clientId, fs))
                                            else written);
      StoreSchedule(fs);
    }

    /** `set_filter2_schedule`: a valid window is stored and, when the client has an id,
        sent with filter 1's window. */
    method SetFilter2Schedule(startHour: byte, startMinute: byte, durationHour: byte,
                              durationMinute: byte)
      requires Valid()
      modifies this`spaFilterSettings, this`written, outputQueue
      ensures Valid()
      ensures Abstract() == Protocol.SetFilterSchedule(old(Abstract()), true, startHour,
                                                        startMinute, durationHour, durationMinute)
    {
      if startHour > 23 || startMinute > 55 || durationHour > 23 || durationMinute > 55 {
        assert !ValidSchedule(startHour, startMinute, durationHour, durationMinute);
        return;
      }
      if startMinute % 5 != 0 || durationMinute % 5 != 0 {
        assert !ValidSchedule(startHour, startMinute, durationHour, durationMinute);
        return;
      }
      assert ValidSchedule(startHour, startMinute, durationHour, durationMinute);
      var fs := spaFilterSettings.(filter2Hour := startHour as nat,
                                   filter2Minute := startMinute as nat,
                                   filter2DurationHour := durationHour as nat,
                                   filter2DurationMinute := durationMinute as nat);
      ghost var e := Abstract();
      assert Protocol.SetFilterSchedule(e, true, startHour, startMinute, durationHour, durationMinute)
             == e.(filters := fs, written := if clientId != 0
                                            then written + Frame(ScheduleTelegram(clientId, fs))
                                            else written);
      StoreSchedule(fs);
    }

    /** The tail of the schedule setters: the new settings are stored and, when the client
        has an id, sent. */
    method StoreSchedule(fs: FilterSettings)
      requires Valid()
      modifies this`spaFilterSettings, this`written, outputQueue
      ensures Valid()
      ensures Abstract() == old(Abstract()).(filters := fs,
        written := if clientId != 0 then old(written) + Frame(ScheduleTelegram(clientId, fs))
                   else old(written))
    {
      var wire := [];
      if clientId != 0 {
        wire := SendTelegram(outputQueue, ScheduleTelegram(clientId, fs));
      }
      spaFilterSettings, written := fs, written + wire;
    }

    /** `request_filter_settings`; the periodic request of `update` is the same code. */
    method RequestFilterSettings()
      requires Valid()
      modifies this`written, outputQueue
      ensures Valid()
      ensures Abstract() == Protocol.RequestFilterSettings(old(Abstract()))
    {
      if clientId != 0 {
        var wire := SendTelegram(outputQueue, FilterRequest(clientId));
        written := written + wire;
      }
    }

    /** `reset_filter_runtime`: filter 1 or 2; any other number changes nothing. */
    method ResetFilterRuntime(filter: byte)
      modifies this`spaState
      ensures Abstract() == Protocol.ResetFilterRuntime(old(Abstract()), filter)
    {
      if filter == 1 {
        spaState := spaState.(filter1RuntimeHours := 0);
      } else if filter == 2 {
        spaState := spaState.(filter2RuntimeHours := 0);
      }
    }

    /** `reset_filter_cycles`: filter 1 or 2; any other number changes nothing. */
    method ResetFilterCycles(filter: byte)
      modifies this`spaState
      ensures Abstract() == Protocol.ResetFilterCycles(old(Abstract()), filter)
    {
      if filter == 1 {
        spaState := spaState.(filter1CyclesCompleted := 0);
      } else if filter == 2 {
        spaState := spaState.(filter2CyclesCompleted := 0);
      }
    }

    /** `set_spa_temp_scale`. */
    method SetSpaTempScale(scale: TempScale)
      modifies this`spaTempScale
      ensures Abstract() == Protocol.SetSpaTempScale(old(Abstract()), scale)
    {
      spaTempScale := scale;
    }

    /** `set_esphome_temp_scale`: the scale readings are shown and set-points given in. */
    method SetDisplayTempScale(scale: TempScale)
      modifies this`displayTempScale
      ensures Abstract() == Protocol.SetDisplayTempScale(old(Abstract()), scale)
    {
      displayTempScale := scale;
    }

    // -------------------------------------------------------------------------
    // Queries.

    /** `is_communicating`. */
    method IsCommunicating() returns (r: bool)
      ensures r == Protocol.IsCommunicating(Abstract())
    {
      r := clientId != 0;
    }

    /** `get_filter1_current_runtime_minutes` and `get_filter2_current_runtime_minutes` at
        clock `now`. */
    method CurrentRuntimeMinutes(second: bool, now: u32) returns (minutes: u32)
      ensures minutes == if second
        then Filters.CurrentRuntimeMinutes(spaState.filter2Running, spaState.filter2LastStartTime, now)
        else Filters.CurrentRuntimeMinutes(spaState.filter1Running, spaState.filter1LastStartTime, now)
    {
      var running := if second then spaState.filter2Running else spaState.filter1Running;
      var start := if second then spaState.filter2LastStartTime else spaState.filter1LastStartTime;
      if !running {
        return 0;
      }
      var runtime := Sub32(now, start);
      minutes := runtime / MS_PER_MINUTE;
    }

    // -------------------------------------------------------------------------
    // Decoders. Each reads the telegram held in the input queue.

    /** `decodeSettings`: the configuration record, the configuration stage Got, and the
        spa's scale adopted while it is still undefined. */
    method DecodeSettings()
      modifies this`spaConfig, this`configStage, this`spaTempScale
      ensures Abstract() == Protocol.DecodeSettings(old(Abstract()), inputQueue.items)
    {
      var config := ConfigOf(inputQueue.items);
      var scale := if spaTempScale == Undefined then ScaleOfBit(config.temperatureScale)
                   else spaTempScale;
      spaConfig, configStage, spaTempScale := config, Got, scale;
    }

    /** `decodeFault`. */
    method DecodeFault()
      modifies this`spaFaultLog, this`faultStage
      ensures Abstract() == Protocol.DecodeFault(old(Abstract()), inputQueue.items)
    {
      spaFaultLog, faultStage := FaultEntry(inputQueue.items), Got;
    }

    /** `decodeFilterSettings`. */
    method DecodeFilterSettings()
      modifies this`spaFilterSettings, this`filterStage
      ensures Abstract() == Protocol.DecodeFilterSettings(old(Abstract()), inputQueue.items)
    {
      spaFilterSettings, filterStage := FilterSettingsOf(inputQueue.items), Got;
    }

    /** `decodeState` at clock `now`: the status fields, then the filter tracker; the clock
        bytes kept as the pending time and the checksum remembered for the change-detection
        gate are separate fields, so they are stored together at the end. */
    method DecodeState(now: u32)
      modifies this`spaState, this`targetHour, this`targetMinute, this`lastStateCrc
      ensures Abstract() == Protocol.DecodeState(old(Abstract()), inputQueue.items, now)
    {
      var f := inputQueue.items;
      spaState := StatusFields(spaState, spaTempScale, displayTempScale, f);
      UpdateFilterStatus(now);
      targetHour, targetMinute, lastStateCrc := At(f, 8), At(f, 9), At(f, At(f, 1) as int);
    }

    /** `update_filter_status` at clock `now`: each filter starts or stops as its schedule
        says, filter 2 only while it is enabled. */
    method UpdateFilterStatus(now: u32)
      modifies this`spaState
      ensures spaState == Filters.UpdateFilterStatus(old(spaState), spaFilterSettings, now)
    {
      var fs := spaFilterSettings;
      var st := spaState;
      var filter1ShouldRun := CheckFilterSchedule(fs.filter1Hour, fs.filter1Minute,
        fs.filter1DurationHour, fs.filter1DurationMinute, st.hour, st.minutes);
      var filter2ShouldRun := false;
      if fs.filter2Enable == 1 {
        filter2ShouldRun := CheckFilterSchedule(fs.filter2Hour, fs.filter2Minute,
          fs.filter2DurationHour, fs.filter2DurationMinute, st.hour, st.minutes);
      }
      if filter1ShouldRun != st.filter1Running {
        if filter1ShouldRun {
          st := st.(filter1Running := true, filter1LastStartTime := now);
        } else {
          var runtime := Sub32(now, st.filter1LastStartTime);
          st := st.(filter1Running := false,
                    filter1RuntimeHours := Add16(st.filter1RuntimeHours, runtime / MS_PER_HOUR),
                    filter1CyclesCompleted := Add16(st.filter1CyclesCompleted, 1));
        }
      }
      if filter2ShouldRun != st.filter2Running {
        if filter2ShouldRun {
          st := st.(filter2Running := true, filter2LastStartTime := now);
        } else {
          var runtime := Sub32(now, st.filter2LastStartTime);
          st := st.(filter2Running := false,
                    filter2RuntimeHours := Add16(st.filter2RuntimeHours, runtime / MS_PER_HOUR),
                    filter2CyclesCompleted := Add16(st.filter2CyclesCompleted, 1));
        }
      }
      spaState := st;
    }
  }

  /** The reassembler steps of `read_serial` on the input queue `q` for the received byte
      `b`. An accepted telegram is left in the queue for its dispatch; on every other
      outcome the queue is the one `Receive` describes. The front of an empty queue reads
      as a non-delimiter. */
  method ReceiveByte(q: ByteQueue, b: byte) returns (outcome: Outcome)
    requires q.maxSize == QUEUE_SIZE
    modifies q
    ensures outcome == Receive(old(q.items), b).outcome
    ensures q.items == if outcome.Accepted? then outcome.frame else Receive(old(q.items), b).queue
  {
    var size := q.Size();
    var front: byte := 0;
    if size > 0 {
      front := q.First();
    }
    if front != DELIMITER && b != DELIMITER {
      q.Clear();
      return Dropped;
    }
    if size >= 2 {
      var second := q.Get(1);
      if second == DELIMITER {
        var _ := q.Pop();
        return DoubleDelimiter;
      }
    }
    outcome := AppendByte(q, b);
  }

  /** The part of `read_serial` after the two early returns: `b` is appended, and a
      telegram complete on a delimiter is checksummed. */
  method AppendByte(q: ByteQueue, b: byte) returns (outcome: Outcome)
    requires q.maxSize == QUEUE_SIZE
    requires !((q.items == [] || q.items[0] != DELIMITER) && b != DELIMITER)
    requires !(|q.items| >= 2 && q.items[1] == DELIMITER)
    modifies q
    ensures outcome == Receive(old(q.items), b).outcome
    ensures q.items == if outcome.Accepted? then outcome.frame else Receive(old(q.items), b).queue
  {
    var ok := q.Push(b);
    var size := q.Size();
    var length := q.Get(1);
    if b == DELIMITER && size > 2 && size >= length as int + 2 {
      if size - 2 < length as int {
        // The "packet incomplete" branch: the completion test just passed excludes it.
        assert false;
      } else {
        var calculated := Crc8Of(q, true);
        var packetCrc := q.Get(length as int);
        if calculated != packetCrc {
          q.Clear();
          return CrcMismatch;
        }
        return Accepted(q.items);
      }
    }
    return Stored;
  }

  /** `rs485_send` on the queue `q`: the staged telegram is wrapped in place, read out byte by
      byte as the bytes written to the UART, and cleared. */
  method Rs485Send(q: ByteQueue) returns (wire: seq<byte>)
    requires q.maxSize == QUEUE_SIZE && |q.items| <= QUEUE_SIZE - 3
    modifies q
    ensures q.items == [] && wire == Frame(old(q.items))
  {
    WrapTelegram(q);
    wire := [];
    var loopIndex := 0;
    while loopIndex < |q.items|
      invariant 0 <= loopIndex <= |q.items|
      invariant q.items == Frame(old(q.items))
      invariant wire == q.items[..loopIndex]
    {
      var b := q.Get(loopIndex);
      wire := wire + [b];
      assert q.items[..loopIndex + 1] == q.items[..loopIndex] + [b];
      loopIndex := loopIndex + 1;
    }
    assert q.items[..loopIndex] == q.items;
    q.Clear();
  }

  /** A telegram `p` staged in the empty queue `q` and sent. */
  method SendTelegram(q: ByteQueue, p: seq<byte>) returns (wire: seq<byte>)
    requires q.maxSize == QUEUE_SIZE && q.items == [] && |p| <= QUEUE_SIZE - 3
    modifies q
    ensures q.items == [] && wire == Frame(p)
  {
    StageTelegram(q, p);
    wire := Rs485Send(q);
  }

  /** The framing steps of `rs485_send`: the length `size + 2` in front, the checksum of
      what is then queued behind, and a delimiter at either end. */
  method WrapTelegram(q: ByteQueue)
    requires q.maxSize == QUEUE_SIZE && |q.items| <= QUEUE_SIZE - 3
    modifies q
    ensures q.items == Frame(old(q.items))
  {
    ghost var p := q.items;
    var size := q.Size();
    ByteOfNat(size + 2);
    var len := (size + 2) as byte;
    AddLengthAndChecksum(q);
    AddDelimiters(q);
    FrameLayout(p);
  }

  /** A delimiter at either end of the queue. */
  method AddDelimiters(q: ByteQueue)
    requires q.maxSize == QUEUE_SIZE && |q.items| <= QUEUE_SIZE - 1
    modifies q
    ensures q.items == [DELIMITER] + old(q.items) + [DELIMITER]
  {
    var ok := q.Unshift(DELIMITER);
    ok := q.Push(DELIMITER);
  }

  /** The length byte `size + 2` in front, then the checksum of the whole queue behind. */
  method AddLengthAndChecksum(q: ByteQueue)
    requires q.maxSize == QUEUE_SIZE && |q.items| <= QUEUE_SIZE - 3
    modifies q
    ensures var len := (|old(q.items)| + 2) as byte;
      q.items == [len] + old(q.items) + [Crc8([len] + old(q.items))]
  {
    ghost var p := q.items;
    var size := q.Size();
    ByteOfNat(size + 2);
    var len := (size + 2) as byte;
    var ok := q.Unshift(len);
    var crc := Crc8Of(q, false);
    assert crc == Crc8([len] + p) by { WindowOutbound([len] + p); }
    ok := q.Push(crc);
  }

  /** A run of `push` calls staging the telegram `p` in an empty output queue. */
  method StageTelegram(q: ByteQueue, p: seq<byte>)
    requires q.maxSize == QUEUE_SIZE && q.items == [] && |p| <= QUEUE_SIZE - 3
    modifies q
    ensures q.items == p
  {
    var i := 0;
    while i < |p|
      invariant 0 <= i <= |p| && q.items == p[..i]
    {
      var ok := q.Push(p[i]);
      assert p[..i + 1] == p[..i] + [p[i]];
      i := i + 1;
    }
    assert p[..i] == p;
  }
}
