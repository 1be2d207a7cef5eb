/** `SpaState`: the live state of the tub that the status decoder and the filter tracker
    update field by field. The component holds it by value, so it is modelled as a value. */
module SpaStates {
  import opened Bytes

  /** The "no value yet" byte of `rest_mode` and `heat_state`. */
  const NO_VALUE: u8 := 254

  /** The value of a `SpaState` object at one moment. Temperatures are None until a reading
      has been decoded. */
  datatype SpaStateValue = SpaStateValue(
    jet1: u2, jet2: u2, jet3: u2, jet4: u2,
    pump1: u2, pump2: u2, pump3: u2,
    blower: u1, light: u1, highrange: u1, circulation: u1,
    hour: u5, minutes: u6,
    restMode: u8, heatState: u8,
    targetTemp: Option<real>, currentTemp: Option<real>,
    filter1RuntimeHours: u16, filter2RuntimeHours: u16,
    filter1CyclesCompleted: u16, filter2CyclesCompleted: u16,
    filter1Running: bool, filter2Running: bool,
    filter1LastStartTime: u32, filter2LastStartTime: u32)

  /** The state a fresh object holds: the constructor's defaults (rest mode and heat state at
      the "no value" byte, no temperature reading, filter counters at zero), and zero for the
      fields it leaves uninitialised. */
  const INITIAL := SpaStateValue(
    0, 0, 0, 0,
    0, 0, 0,
    0, 0, 0, 0,
    0, 0,
    NO_VALUE, NO_VALUE,
    None, None,
    0, 0,
    0, 0,
    false, false,
    0, 0)
}
