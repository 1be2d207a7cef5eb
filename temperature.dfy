/** Temperature scales, the accepted set-point limits and the conversions the driver applies
    to the controller's temperature bytes. Arithmetic is exact (`real`). */
module Temperature {
  import opened Bytes

  /** The accepted set-point range, in degrees Celsius and Fahrenheit. */
  const MIN_TEMPERATURE_C: nat := 7
  const MAX_TEMPERATURE_C: nat := 40
  const MIN_TEMPERATURE_F: nat := 60
  const MAX_TEMPERATURE_F: nat := 104

  /** The byte the controller sends for "no reading". */
  const NO_READING: byte := 0xFF

  /** `TEMP_SCALE`. */
  datatype TempScale = F | C | Undefined

  function ScaleCode(s: TempScale): (code: u8)
    ensures code == 0 <==> s == F
    ensures code == 1 <==> s == C
    ensures code == 254 <==> s == Undefined
  {
    match s
    case F => 0
    case C => 1
    case Undefined => 254
  }

  /** `static_cast<TEMP_SCALE>` of the configuration's scale bit: 0 is Fahrenheit, 1 Celsius. */
  function ScaleOfBit(bit: u1): (s: TempScale)
    ensures ScaleCode(s) == bit
  {
    if bit == 0 then F else C
  }

  function CelsiusToFahrenheit(c: real): real
  {
    c * 9.0 / 5.0 + 32.0
  }

  function FahrenheitToCelsius(f: real): real
  {
    (f - 32.0) * 5.0 / 9.0
  }

  /** The two conversions are inverse to each other and increasing. */
  lemma ConversionsInverse(c: real, f: real)
    ensures FahrenheitToCelsius(CelsiusToFahrenheit(c)) == c
    ensures CelsiusToFahrenheit(FahrenheitToCelsius(f)) == f
    ensures c <= FahrenheitToCelsius(f) <==> CelsiusToFahrenheit(c) <= f
  {
  }

  predicate InCelsiusRange(t: real)
  {
    MIN_TEMPERATURE_C as real <= t <= MAX_TEMPERATURE_C as real
  }

  predicate InFahrenheitRange(t: real)
  {
    MIN_TEMPERATURE_F as real <= t <= MAX_TEMPERATURE_F as real
  }

  /** A raw temperature byte in degrees Celsius: half degrees on a Celsius spa (and when the
      spa's scale is still unknown), degrees Fahrenheit on a Fahrenheit spa. */
  function RawToCelsius(spaScale: TempScale, raw: byte): real
  {
    if spaScale == F then FahrenheitToCelsius(raw as nat as real) else raw as nat as real / 2.0
  }

  /** The reading the state decoder stores for a temperature byte, or None when it keeps the
      previous one: the byte is 0xFF, the value is outside 7 to 40 degrees Celsius, or the
      display scale is undefined. */
  function DecodeTemp(spaScale: TempScale, displayScale: TempScale, raw: byte): (r: Option<real>)
    ensures r.Some? <==> raw != NO_READING && InCelsiusRange(RawToCelsius(spaScale, raw))
                         && displayScale != Undefined
    ensures r.Some? && displayScale == C ==> r.value == RawToCelsius(spaScale, raw)
    ensures r.Some? && displayScale == F ==> FahrenheitToCelsius(r.value) == RawToCelsius(spaScale, raw)
  {
    if raw == NO_READING then None
    else
      var t := RawToCelsius(spaScale, raw);
      if !InCelsiusRange(t) then None
      else if displayScale == C then Some(t)
      else if displayScale == F then Some(CelsiusToFahrenheit(t))
      else None
  }

  /** A requested set-point, given in the display scale, in degrees Celsius. */
  function SetPointCelsius(displayScale: TempScale, temp: real): real
  {
    if displayScale == C then temp else FahrenheitToCelsius(temp)
  }

  /** The byte `set_temp` stages for a requested set-point `temp`, given in the display scale,
      or None when it is rejected (out of range, or either scale undefined): twice the
      Celsius value on a Celsius spa, the Fahrenheit value on a Fahrenheit spa, each with
      its fraction dropped by the conversion to `uint8_t`. */
  function EncodeTarget(displayScale: TempScale, spaScale: TempScale, temp: real): (r: Option<byte>)
    ensures r.Some? <==> spaScale != Undefined
                         && ((displayScale == C && InCelsiusRange(temp))
                             || (displayScale == F && InFahrenheitRange(temp)))
    ensures r.Some? && spaScale == C ==> r.value as int == (SetPointCelsius(displayScale, temp) * 2.0).Floor
    ensures r.Some? && spaScale == F ==>
      r.value as int == CelsiusToFahrenheit(SetPointCelsius(displayScale, temp)).Floor
  {
    var celsius :=
      if displayScale == C && InCelsiusRange(temp) then Some(temp)
      else if displayScale == F && InFahrenheitRange(temp) then Some(FahrenheitToCelsius(temp))
      else None;
    if celsius.None? then None
    else
      var t := celsius.value;
      assert 7.0 <= t <= 40.0;
      if spaScale == C then
        var k := (t * 2.0).Floor;
        ByteOfNat(k);
        Some(k as byte)
      else if spaScale == F then
        var k := CelsiusToFahrenheit(t).Floor;
        ByteOfNat(k);
        Some(k as byte)
      else assert spaScale == Undefined; None
  }

  /** On a Celsius spa with a Celsius display, an accepted set-point comes back from the
      controller as the set-point rounded down to half a degree. */
  lemma SetPointRoundTripCelsius(temp: real)
    requires InCelsiusRange(temp)
    ensures var r := EncodeTarget(C, C, temp);
      && r.Some?
      && r.value as nat == (temp * 2.0).Floor
      && DecodeTemp(C, C, r.value) == Some(r.value as nat as real / 2.0)
      && temp - 0.5 < r.value as nat as real / 2.0 <= temp
  {
    var k := (temp * 2.0).Floor;
    assert 14 <= k <= 80;
    var r := EncodeTarget(C, C, temp);
    assert r.value as nat == k;
    assert InCelsiusRange(k as real / 2.0);
  }

  /** On a Fahrenheit spa with a Fahrenheit display, an accepted set-point comes back as the
      set-point rounded down to a whole degree. */
  lemma SetPointRoundTripFahrenheit(temp: real)
    requires InFahrenheitRange(temp)
    ensures var r := EncodeTarget(F, F, temp);
      && r.Some?
      && r.value as nat == temp.Floor
      && DecodeTemp(F, F, r.value) == Some(r.value as nat as real)
  {
    ConversionsInverse(0.0, temp);
    var k := temp.Floor;
    assert 60 <= k <= 104;
    var r := EncodeTarget(F, F, temp);
    assert r.value as nat == k;
    ConversionsInverse(0.0, k as real);
    assert FahrenheitToCelsius(k as real) <= 40.0;
    assert FahrenheitToCelsius(k as real) >= 7.0;
  }

  /** On a Celsius spa with a Fahrenheit display, an accepted set-point is staged as twice
      its Celsius value and comes back as at most 0.9 degrees Fahrenheit below it, the
      half-degree step of the Celsius byte. */
  lemma SetPointRoundTripCelsiusSpaFahrenheitDisplay(temp: real)
    requires InFahrenheitRange(temp)
    ensures var r := EncodeTarget(F, C, temp);
      && r.Some?
      && r.value as int == (FahrenheitToCelsius(temp) * 2.0).Floor
      && var d := DecodeTemp(C, F, r.value);
      && d.Some?
      && temp - 0.9 < d.value <= temp
  {
    var c := FahrenheitToCelsius(temp);
    var k := (c * 2.0).Floor;
    assert 31 <= k <= 80;
    var r := EncodeTarget(F, C, temp);
    assert r.value as int == k;
    var h := k as real / 2.0;
    assert InCelsiusRange(h);
    assert c - 0.5 < h <= c;
    ConversionsInverse(c, temp);
    assert DecodeTemp(C, F, r.value) == Some(CelsiusToFahrenheit(h));
  }

  /** On a Fahrenheit spa with a Celsius display, an accepted set-point is staged as its
      whole Fahrenheit degrees and, from 7.5 degrees Celsius up, comes back as at most 5/9
      of a degree below it. */
  lemma SetPointRoundTripFahrenheitSpaCelsiusDisplay(temp: real)
    requires InCelsiusRange(temp)
    ensures var r := EncodeTarget(C, F, temp);
      && r.Some?
      && r.value as int == CelsiusToFahrenheit(temp).Floor
      && var d := DecodeTemp(F, C, r.value);
      && (d.Some? ==> temp - 5.0 / 9.0 < d.value <= temp)
      && (temp >= 7.5 ==> d.Some?)
  {
    var t := CelsiusToFahrenheit(temp);
    var k := t.Floor;
    assert 44 <= k <= 104;
    var r := EncodeTarget(C, F, temp);
    assert r.value as int == k;
    var back := FahrenheitToCelsius(k as real);
    ConversionsInverse(temp, k as real);
    assert back <= temp;
    ConversionsInverse(temp, k as real + 1.0);
    assert temp < FahrenheitToCelsius(k as real + 1.0);
    assert back <= 40.0;
  }

  /** At the bottom of the Celsius range, a Fahrenheit spa is sent 44 degrees Fahrenheit,
      which is below 7 degrees Celsius: the status decoder will not take it back. */
  lemma LowestCelsiusSetPointOnFahrenheitSpa()
    ensures EncodeTarget(C, F, 7.0) == Some(44)
    ensures DecodeTemp(F, C, 44) == None
  {
    assert CelsiusToFahrenheit(7.0).Floor == 44;
    ByteOfNat(44);
  }

  /** A Celsius spa reporting 0x28 (twenty degrees) shows 68 degrees on a Fahrenheit display. */
  lemma CelsiusSpaFahrenheitDisplay()
    ensures DecodeTemp(C, F, 0x28) == Some(68.0)
  {
  }
}
