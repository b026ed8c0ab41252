/** The BME680 driver of firmware 5.0.0 (bme_module.cpp). The Adafruit
    library is not part of this model: whether the sensor answers `begin`
    and what `performReading` yields are parameters, and the configuration
    calls `begin` makes are recorded in order. */
module BmeModule {
  import opened CTypes

  /** `BME_SENSOR_ADDR` */
  const SensorAddress: Uint8 := 0x76

  /** The failed-measurement values of T, P, RH and GR. */
  const FailedTemperature: real := -99.0
  const FailedPressure: Uint32 := 0
  const FailedHumidity: real := -99.0
  const FailedGasResistance: Uint32 := 0

  datatype Oversampling = Os2x | Os4x | Os8x

  /** The configuration calls `begin` makes on the sensor. */
  datatype Setting =
    | TemperatureOversampling(os: Oversampling)
    | HumidityOversampling(os: Oversampling)
    | PressureOversampling(os: Oversampling)
    | IirFilterSize(size: nat)
    | GasHeater(celsius: nat, ms: nat)

  /** What a successful `performReading` leaves in the library object: the
      temperature and humidity floats as values the driver only copies. */
  datatype Measurement = Measurement(
    temperature: real, pressure: Uint32, humidity: real, gasResistance: Uint32)

  /** `BME_Data` */
  datatype BmeData = BmeData(T: real, P: Uint32, RH: real, GR: Uint32)

  /** The dataset of a failed measurement. */
  const Failed := BmeData(FailedTemperature, FailedPressure, FailedHumidity, FailedGasResistance)

  /** The settings a successful `begin` applies, in order. */
  function Configuration(): seq<Setting>
  {
    [TemperatureOversampling(Os8x), HumidityOversampling(Os2x), PressureOversampling(Os4x),
     IirFilterSize(3), GasHeater(320, 150)]
  }

  /** The dataset `return_updated` builds from the outcome of
      `performReading` (`None` when it fails). */
  function Buffered(reading: Option<Measurement>): BmeData
  {
    match reading
    case None => Failed
    case Some(m) => BmeData(m.temperature, m.pressure, m.humidity, m.gasResistance)
  }

  /** A successful reading is copied field for field, so distinct readings
      give distinct datasets. */
  lemma BufferedCopies(a: Measurement, b: Measurement)
    ensures Buffered(Some(a)) == Buffered(Some(b)) <==> a == b
  {
  }

  /** The dataset is the failure sentinel exactly when the reading failed or
      the sensor itself reported T = -99, P = 0, RH = -99 and GR = 0. */
  lemma FailedIff(reading: Option<Measurement>)
    ensures Buffered(reading) == Failed <==>
              reading.None? || reading.value == Measurement(-99.0, 0, -99.0, 0)
  {
  }

  /** A dataset with a nonzero pressure or gas resistance, or a temperature
      other than -99, comes from a successful reading of exactly those
      values. */
  lemma NotFailedMeansMeasured(reading: Option<Measurement>)
    requires Buffered(reading).P != 0 || Buffered(reading).GR != 0 || Buffered(reading).T != -99.0
    ensures reading.Some?
    ensures Buffered(reading).T == reading.value.temperature
    ensures Buffered(reading).P == reading.value.pressure
    ensures Buffered(reading).RH == reading.value.humidity
    ensures Buffered(reading).GR == reading.value.gasResistance
  {
  }

  /** The status after construction and a series of `begin` calls, each
      answered or not. */
  function StatusAfter(attempts: seq<bool>): bool
  {
    if attempts == [] then false
    else StatusAfter(attempts[..|attempts| - 1]) || attempts[|attempts| - 1]
  }

  /** One more `begin` sets the status if it finds the sensor and otherwise
      keeps it. */
  lemma StatusAfterSnoc(attempts: seq<bool>, answered: bool)
    ensures StatusAfter(attempts + [answered]) == (StatusAfter(attempts) || answered)
  {
    assert (attempts + [answered])[..|attempts|] == attempts;
  }

  /** Status only goes from false to true: it is set exactly when some
      `begin` so far found the sensor, whatever failed later. */
  lemma {:induction false} StatusAfterIff(attempts: seq<bool>)
    ensures StatusAfter(attempts) <==> true in attempts
  {
    if attempts != [] {
      var init := attempts[..|attempts| - 1];
      StatusAfterIff(init);
      assert attempts == init + [attempts[|attempts| - 1]];
    }
  }

  /** `BME_Module`: the library object is left out; `settings` records the
      configuration calls made on it so far, and the ghost `history` whether
      the sensor answered each `begin` so far. */
  class BmeModule {
    var status: bool
    var settings: seq<Setting>
    ghost var history: seq<bool>

    /** The status is the fold of the answers `begin` has seen. */
    ghost predicate Valid()
      reads this
    {
      status == StatusAfter(history)
    }

    /** `BME_Module()`: status false. */
    constructor ()
      ensures Valid()
      ensures !status && settings == [] && history == []
    {
      status := false;
      settings := [];
      history := [];
    }

    /** `begin`: when the sensor answers at its address, sets status and
        applies the configuration; never clears status, and returns it.
        After any series of calls the status is set exactly when one of
        them found the sensor. */
    method Begin(responds: Uint8 -> bool) returns (ok: bool)
      requires Valid()
      modifies this
      ensures Valid()
      ensures history == old(history) + [responds(SensorAddress)]
      ensures status == (old(status) || responds(SensorAddress))
      ensures status <==> true in history
      ensures settings == old(settings) + (if responds(SensorAddress) then Configuration() else [])
      ensures ok == status
    {
      var answered := responds(SensorAddress);
      ghost var seen := history + [answered];
      StatusAfterSnoc(history, answered);
      StatusAfterIff(seen);
      if answered {
        status := true;
        settings := settings + [TemperatureOversampling(Os8x)];
        settings := settings + [HumidityOversampling(Os2x)];
        settings := settings + [PressureOversampling(Os4x)];
        settings := settings + [IirFilterSize(3)];
        settings := settings + [GasHeater(320, 150)];
      }
      ok := status;
      history := seen;
    }

    /** `return_updated`: the sentinel dataset when the measurement fails,
        otherwise the four measured values. It neither reads nor changes
        status. */
    method ReturnUpdated(reading: Option<Measurement>) returns (data: BmeData)
      ensures data == Buffered(reading)
      ensures reading.None? ==> data.T == -99.0 && data.P == 0 && data.RH == -99.0 && data.GR == 0
      ensures reading.Some? ==>
                data.T == reading.value.temperature && data.P == reading.value.pressure
                && data.RH == reading.value.humidity && data.GR == reading.value.gasResistance
    {
      if reading.None? {
        data := BmeData(-99.0, 0, -99.0, 0);
      } else {
        var m := reading.value;
        data := BmeData(m.temperature, m.pressure, m.humidity, m.gasResistance);
      }
    }
  }
}
