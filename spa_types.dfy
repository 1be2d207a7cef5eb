/** The plain records of the driver: the fault-log entry, the filter-cycle settings and the
    spa configuration. Every bit-field is a bounded natural of its declared width. */
module SpaTypes {
  import opened Bytes

  /** `SpaFaultLog`: one entry of the controller's fault log. */
  datatype FaultLog = FaultLog(
    totalEntries: u5,
    currentEntry: u5,
    faultCode: u6,
    faultMessage: string,
    daysAgo: u8,
    hour: u5,
    minutes: u6)

  /** `SpaFilterSettings`: start time and duration of the two filter cycles. */
  datatype FilterSettings = FilterSettings(
    filter1Hour: u5,
    filter1Minute: u6,
    filter1DurationHour: u5,
    filter1DurationMinute: u6,
    filter2Enable: u1,
    filter2Hour: u5,
    filter2Minute: u6,
    filter2DurationHour: u5,
    filter2DurationMinute: u6)

  /** `SpaConfig`: the equipment the controller reports. Its declaration is not part of this
      model; the fields are the ones the configuration decoder assigns, each held in a byte. */
  datatype SpaConfig = SpaConfig(
    pump1: u8, pump2: u8, pump3: u8, pump4: u8, pump5: u8, pump6: u8,
    light1: u8, light2: u8,
    circ: bool, blower: bool, mister: bool, aux1: bool, aux2: bool,
    temperatureScale: u8)

  /** The records before anything has been decoded: every field zero, the message empty. */
  const NO_FAULT_LOG := FaultLog(0, 0, 0, "", 0, 0, 0)
  const NO_FILTER_SETTINGS := FilterSettings(0, 0, 0, 0, 0, 0, 0, 0, 0)
  const NO_CONFIG := SpaConfig(0, 0, 0, 0, 0, 0, 0, 0, false, false, false, false, false, 0)

  const UNKNOWN_ERROR := "Unknown error"

  /** The codes the fault-message table names: 15 to 22, 26 to 32 and 34 to 37. */
  predicate KnownFaultCode(code: nat)
  {
    15 <= code <= 22 || 26 <= code <= 32 || 34 <= code <= 37
  }

  /** The message the fault decoder stores for a (6-bit) fault code. */
  function FaultMessage(code: u6): (m: string)
    ensures m == UNKNOWN_ERROR <==> !KnownFaultCode(code)
    ensures code == 18 || code == 21 <==> m == "The settings have been reset"
  {
    match code
    case 15 => "Sensors are out of sync"
    case 16 => "The water flow is low"
    case 17 => "The water flow has failed"
    case 18 => "The settings have been reset"
    case 19 => "Priming Mode"
    case 20 => "The clock has failed"
    case 21 => "The settings have been reset"
    case 22 => "Program memory failure"
    case 26 => "Sensors are out of sync -- Call for service"
    case 27 => "The heater is dry"
    case 28 => "The heater may be dry"
    case 29 => "The water is too hot"
    case 30 => "The heater is too hot"
    case 31 => "Sensor A Fault"
    case 32 => "Sensor B Fault"
    case 34 => "A pump may be stuck on"
    case 35 => "Hot fault"
    case 36 => "The GFCI test failed"
    case 37 => "Standby Mode (Hold Mode)"
    case _ => UNKNOWN_ERROR
  }

  /** Apart from codes 18 and 21, distinct known codes have distinct messages. */
  lemma FaultMessagesDistinct(a: u6, b: u6)
    requires KnownFaultCode(a) && KnownFaultCode(b) && a != b
    requires !(a in {18, 21} && b in {18, 21})
    ensures FaultMessage(a) != FaultMessage(b)
  {
  }
}
