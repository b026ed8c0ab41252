# XPOD sensor drivers in Dafny

XPOD is an Arduino-based air-quality node. Its firmware talks to each sensor
through a small driver class. The ADS1115 and BME680 drivers keep an
availability flag that `begin` sets, and their reads return either a fixed
missing-device value or the decoded hardware answer. The Quadstat driver's flag
is set by its constructor alone, and the CO2 driver has no flag and no
missing-device value. This project models those drivers:

- **ADS1115 front-end, firmware 4.0.0 with the 5.0.0 header** (`ads_ids.dfy`,
  `ads_driver.dfy`):
  - the `ads_sensor_id_e` numbering, whose values depend on MQ_ENABLED and PID_ENABLED;
  - the constructor's (address, channel) table;
  - `begin`, which marks each entry whose device answers and then reports whether all did;
  - the status-guarded `read_raw`, `read_as_auxiliary` and `read_as_worker`;
  - `return_updated`, with its fixed read order and a 100 ms delay after every read.
- **ADS1115 front-end, V4 line** (`ads_driver_v4.dfy`, with `comma_text.dfy`):
  - the FIG2600/FIG2602/FIG3/FIG4/PID/E2V/CO table;
  - `read_raw` with the -999 sentinel stored as `uint16_t` (64537);
  - the two CO reads, which share one entry;
  - the comma-separated lines `read4sd_raw` and `read4print_raw`.
- **ELT S300 CO2 sensor** (`co2_module.dfy` for firmware 4.1.0, `co2_module_v3.dfy` for 3.2.3):
  - the request;
  - the loop that drains the reply and assembles the reading from bytes 2 and 3.
- **Quadstat (two MCP342x converters)** (`quad_module.dfy`): `begin`, then eight
  one-shot conversions narrowed to `int16_t` into the `QS*` fields.
- **BME680** (`bme_module.dfy`):
  - the status flag and the configuration a successful `begin` applies;
  - the sentinel or copied dataset of `return_updated`.

`ctypes.dfy` holds the fixed-width C integer types and the `uint16_t`/`int16_t`
conversions. `ads1115.dfy` holds the ADS1115 device interface.

Hardware libraries (Adafruit_ADS1115, MCP342x, Adafruit_BME680, Wire) are not
modelled. Each call into them becomes a parameter:
- a `Bus` of functions from address (and channel) to answer;
- the reply bytes;
- the eight conversion results;
- whether the sensor answers and what it measured.

A driver that updates its fields becomes a Dafny class whose methods state the
new state. Each method is proved against a specification function, and the
promised properties are lemmas about those functions. Delays and bus calls
are recorded as trace events, not as time.

Where the code does less than a reader of its comments or its other drivers would expect, this model follows the code:
- **ADS `begin` is not fail-closed** (a fail-closed `begin` would leave every entry unavailable when it returns false). It marks every answering entry available even when it returns false. A partial failure leaves those entries readable.
- **The CO2 reading has no sentinel or timeout**, unlike the ADS and BME reads, which return a fixed value when the device is missing.
  - With fewer than two reply bytes, `reading` is never assigned; `Ppm` returns `None`.
  - With exactly two bytes, the result is byte 2 · 256.
- **BME `return_updated` ignores the status flag.** A failed measurement gives T = -99, P = 0, RH = -99 and GR = 0, so the sentinel for P and GR is 0, not the -99 that T and RH use.
- **Quadstat `return_updated` never touches the member `status`.** Its comment on `begin` promises a report of success, but `return_updated` declares a local `status` that shadows the member, so the member stays true and `begin` always returns true.

## Model

| member | source | states |
|---|---|---|
| CTypes.ToUint16 | xpod_V4.0.0/ads_module.cpp:103 | storing an int into `uint16_t` keeps it modulo 2^16; values in range are unchanged |
| CTypes.ToInt16 | xpod_V5.1.0/quad_module.cpp:56 | narrowing a `long` into `int16_t` gives the value in -2^15..2^15-1 congruent modulo 2^16; values in range are unchanged |
| CTypes.ToInt16Periodic | xpod_V5.1.0/quad_module.cpp:56-57 | narrowing depends only on the residue modulo 2^16 |
| AdsIds.Index | xpod_V5.0.0/ads_module.h:25-43 | each declared enumerator's value is below ADS_SENSOR_COUNT |
| AdsIds.IdAt | xpod_V5.0.0/ads_module.h:25-43 | every value below ADS_SENSOR_COUNT names exactly one declared enumerator (inverse of `Index`) |
| AdsIds.IdAtIndex | xpod_V5.0.0/ads_module.h:25-43 | looking up a declared enumerator's value gives the enumerator back: no two declared enumerators share a value |
| AdsIds.IdsAreConsecutive | xpod_V5.0.0/ads_module.h:24-43 | the declaration list has ADS_SENSOR_COUNT = 9+MQ+PID entries; the k-th has value k; it lists every declared enumerator exactly once |
| AdsIds.IdsEndWithAlphasense | xpod_V5.0.0/ads_module.h:39-41 | the declaration list has ADS_SENSOR_COUNT entries, of which the last two are AS_WORKER and then AS_AUXILIARY |
| AdsIds.DeployedSensorCount | xpod_V5.1.0/xpod_node.h:27-28 | with PID_ENABLED 0 and MQ_ENABLED 1 there are 10 entries; MQ is 6 and AS_AUXILIARY is 9 |
| AdsDriver.AssignWiring | xpod_V4.0.0/ads_module.cpp:21-58 | every entry gets its sensor's address and channel (FIG1 (0x48,3) … AS_AUXILIARY (0x4A,2); MQ and PID only when enabled) |
| AdsDriver.AdsModule.constructor | xpod_V4.0.0/ads_module.cpp:21-62 | the table holds exactly ADS_SENSOR_COUNT entries, each wired to its sensor with status false |
| AdsDriver.ResetTableIsInitial | xpod_V4.0.0/ads_module.cpp:60-61 | clearing every status of a wired table gives the constructor's table |
| AdsDriver.WiredById | xpod_V4.0.0/ads_module.cpp:21-58 | a table whose entry for each declared id carries that id's wiring is wired at every index |
| AdsDriver.AdsModule.Begin | xpod_V4.0.0/ads_module.cpp:71-86 | marks an entry available iff its device answers, or it already was; keeps the wiring; returns true iff every entry is available |
| AdsDriver.BeginFromConstruction | xpod_V4.0.0/ads_module.cpp:60-85 | from construction, entry k is available iff its device answers; `begin` succeeds iff 0x48, 0x49, 0x4A and 0x4B all answer |
| AdsDriver.BeginMonotone | xpod_V4.0.0/ads_module.cpp:73-77 | `begin` never clears a status and keeps the wiring; repeating it against the same devices changes nothing |
| AdsDriver.AdsModule.ReadRaw | xpod_V4.0.0/ads_module.cpp:96-104 | 65535 when the entry is unavailable; otherwise the single-ended sample of the sensor's own address and channel as `uint16_t`; no status changes |
| AdsDriver.RawSentinelAmbiguous | xpod_V4.0.0/ads_module.cpp:100-103 | an available entry sampling -1 reads exactly like an unavailable one (65535) |
| AdsDriver.AdsModule.ReadAsAuxiliary | xpod_V4.0.0/ads_module.cpp:112-120 | -999 when AS_AUXILIARY is unavailable; otherwise the 0-1 differential of device 0x4A, ignoring the channel |
| AdsDriver.AdsModule.ReadAsWorker | xpod_V4.0.0/ads_module.cpp:129-137 | -999 when AS_WORKER is unavailable; otherwise the 2-3 differential of device 0x4B, ignoring the channel |
| AdsDriver.AdsModule.ReturnUpdated | xpod_V4.0.0/ads_module.cpp:146-177 | the dataset is the per-entry guarded reads; the trace is the fixed read order, each read followed by a 100 ms delay |
| AdsDriver.ReturnTraceIsPaced | xpod_V4.0.0/ads_module.cpp:148-174 | the trace is exactly: call k of the read order at step 2k, a 100 ms delay at step 2k+1 |
| AdsDriver.ReadOrderFollowsIds | xpod_V4.0.0/ads_module.cpp:148-174 | the read order is the declaration order of the ids, except that AS_AUXILIARY is read before AS_WORKER |
| AdsDriver.SwapLastTwo | xpod_V4.0.0/ads_module.cpp:169-173 | reading AS_AUXILIARY before AS_WORKER covers the same sensors as the declaration order, which lists AS_WORKER first |
| AdsDriver.ReadOrderCoversIds | xpod_V4.0.0/ads_module.cpp:148-174 | `return_updated` reads every declared sensor exactly once (as a multiset) |
| AdsDriver.UpdatedReadsOwnEntry | xpod_V4.0.0/ads_module.cpp:146-177 | each dataset field is the sentinel when its own entry is unavailable, otherwise a read of its own device (its own channel for raw fields, the 0-1 or 2-3 pair for Auxiliary and Worker); Mq/Pid are present iff enabled |
| AdsDriver.MqMirrorsFig3Heater | xpod_V4.0.0/ads_module.cpp:32-44 | with MQ enabled, after `begin` from construction the MQ and FIG3_HEATER entries are the same entry (0x48, channel 1, available iff 0x48 answers): both fields read the same input |
| AdsDriver.Targets | xpod_V4.0.0/ads_module.cpp:149-173 | the sensors a call sequence reads, pointwise |
| AdsDriver.Raws | xpod_V4.0.0/ads_module.cpp:149-169 | a raw read per id, pointwise |
| CommaText.Split | V4/xpod_V4.0.0/ads_module.cpp:137-160 | the fields between the commas of a text; never empty |
| CommaText.Terminated | V4/xpod_V4.0.0/ads_module.cpp:139-155 | each field followed by a comma, as a run of `out_str += field + ","`; at least one character per field |
| CommaText.SplitTerminated | V4/xpod_V4.0.0/ads_module.cpp:141-155 | comma-free fields, each comma-terminated, split back into the fields plus one empty trailing field |
| CommaText.SplitJoin | V4/xpod_V4.0.0/ads_module.cpp:137-160 | joining nonempty lists of comma-free fields and splitting the text returns the fields |
| AdsDriverV4.Index | V4/xpod_V4.0.0/ads_module.cpp:15-46 | each enabled sensor's entry lies below the entry count 5+2·FIG3+2·FIG4 |
| AdsDriverV4.IdAt | V4/xpod_V4.0.0/ads_module.cpp:15-46 | every entry belongs to an enabled sensor whose `Index` is that entry |
| AdsDriverV4.IdAtIndex | V4/xpod_V4.0.0/ads_module.cpp:15-46 | looking up an enabled sensor's entry gives the sensor back: no two enabled sensors share an entry, so `IdAt` is the inverse of `Index` |
| AdsDriverV4.AssignWiring | V4/xpod_V4.0.0/ads_module.cpp:15-46 | FIG2600 (0x48,3), FIG2602 (0x49,2), FIG3/FIG3 heater (0x48,0/1) and FIG4/FIG4 heater (0x49,0/1) when enabled, PID (0x48,2), E2V (0x4B,0), CO (0x4A,-1) |
| AdsDriverV4.AdsModule.constructor | V4/xpod_V4.0.0/ads_module.cpp:15-50 | every entry wired as above with status false |
| AdsDriverV4.ResetTableIsInitial | V4/xpod_V4.0.0/ads_module.cpp:48-49 | clearing every status of a wired table gives the constructor's table |
| AdsDriverV4.AdsModule.Begin | V4/xpod_V4.0.0/ads_module.cpp:59-74 | marks an entry iff its device answers (never clears); returns true iff all entries are available |
| AdsDriverV4.BeginFromConstruction | V4/xpod_V4.0.0/ads_module.cpp:59-74 | from construction, entry k is available iff its device answers; success iff 0x48, 0x49, 0x4A and 0x4B all answer |
| AdsDriverV4.AdsModule.ReadRaw | V4/xpod_V4.0.0/ads_module.cpp:121-129 | -999 as `uint16_t` (64537) when the entry is unavailable; otherwise its single-ended sample as `uint16_t` |
| AdsDriverV4.RawSentinelAmbiguous | V4/xpod_V4.0.0/ads_module.cpp:125-128 | an available entry sampling -999 reads exactly like an unavailable one |
| AdsDriverV4.AdsModule.ReadCoAux | V4/xpod_V4.0.0/ads_module.cpp:82-93 | -999 when the CO entry is unavailable; otherwise the 0-1 differential of 0x4A |
| AdsDriverV4.AdsModule.ReadCoWorker | V4/xpod_V4.0.0/ads_module.cpp:101-112 | -999 when the CO entry is unavailable; otherwise the 2-3 differential of 0x4A |
| AdsDriverV4.CoReadsShareEntry | V4/xpod_V4.0.0/ads_module.cpp:82-112 | both CO reads are gated on the one CO entry: both are -999 together, otherwise the two differential pairs of the same device |
| AdsDriverV4.AdsModule.Read4SdRaw | V4/xpod_V4.0.0/ads_module.cpp:137-160 | the line is the comma-join of FIG2600, FIG2602, [FIG3, FIG3_H], [FIG4, FIG4_H], PID, E2V, CO_AUX, CO_WORKER texts |
| AdsDriverV4.SdTextReadsBack | V4/xpod_V4.0.0/ads_module.cpp:137-160 | the SD line has 6+2·FIG3+2·FIG4 fields and, with comma-free number text, splits back into exactly those fields |
| AdsDriverV4.SdFieldsPlain | V4/xpod_V4.0.0/ads_module.cpp:141-157 | with comma-free number text, no SD field contains a comma |
| AdsDriverV4.AdsModule.Read4PrintRaw | V4/xpod_V4.0.0/ads_module.cpp:168-191 | the monitor line is the comma-join of the same fields behind the labels FIG1: … CO_MAIN: |
| AdsDriverV4.PrintIsLabelledSd | V4/xpod_V4.0.0/ads_module.cpp:168-191 | field k of the monitor line is label k followed by field k of the SD line |
| AdsDriverV4.LabelsPlain | V4/xpod_V4.0.0/ads_module.cpp:172-188 | no label contains a comma |
| AdsDriverV4.PrintTextReadsBack | V4/xpod_V4.0.0/ads_module.cpp:168-191 | with comma-free number text the monitor line splits back into its labelled fields |
| Co2Module.Begin | xpod_V4.1.0/co2_module.cpp:18-21 | `begin` only starts the I2C bus |
| Co2Module.GetS300Co2 | xpod_V4.1.0/co2_module.cpp:29-60 | sends 0x52 to 0x31, requests 7 bytes, reads every available byte (pausing after bytes 2 and 3); the result is `Ppm` of the reply as a 16-bit value |
| Co2Module.PpmDependsOnBytes2And3 | xpod_V4.1.0/co2_module.cpp:34-46 | replies of 3+ bytes give the same reading iff they agree in bytes 2 and 3; byte 1 and bytes 4 on never matter |
| Co2Module.PpmDecodes | xpod_V4.1.0/co2_module.cpp:36-44 | with 3+ bytes the reading is byte2·256 + byte3: its high byte is byte 2, its low byte byte 3 |
| Co2Module.PpmShortReplies | xpod_V4.1.0/co2_module.cpp:30-47 | fewer than 2 bytes give no reading; exactly 2 give byte2·256 |
| Co2Module.DrainReadsEveryByte | xpod_V4.1.0/co2_module.cpp:34-46 | the loop reads each of the n available bytes exactly once before returning |
| Co2Module.DrainPausesTwice | xpod_V4.1.0/co2_module.cpp:36-44 | the loop pauses 10 ms after byte 2 and after byte 3 and never otherwise: 0, 1 or 2 pauses for fewer than 2, exactly 2, or 3+ bytes |
| Co2ModuleV3.Begin | V3.2/xpod_V3.2.3/co2_module.cpp:14-17 | `begin` does nothing |
| Co2ModuleV3.GetS300Co2 | V3.2/xpod_V3.2.3/co2_module.cpp:25-45 | same request with literals 0x31/0x52/7; the `long` accumulator loses nothing and the float result equals byte2·256 + byte3 |
| Co2ModuleV3.SameRequestAsLater | V3.2/xpod_V3.2.3/co2_module.cpp:29 | the literal request equals the named-constant request of firmware 4.1.0 |
| QuadModule.Dataset | xpod_V5.1.0/quad_module.cpp:54-92 | the k-th planned conversion, narrowed to `int16_t`, lands in the field of its chip and channel (alpha_one ch1..4 → QS1_C1, QS1_C2, QS2_C1, QS2_C2; alpha_two → QS3/QS4) |
| QuadModule.PlanCoversEveryChannel | xpod_V5.1.0/quad_module.cpp:54-90 | 8 conversions, all oneShot, 16-bit, gain 1, timeout 1000000; every channel of both chips exactly once |
| QuadModule.DatasetKeepsInRange | xpod_V5.1.0/quad_module.cpp:56-92 | results already in `int16_t` range are stored unchanged in their field |
| QuadModule.DatasetWraps | xpod_V5.1.0/quad_module.cpp:56-92 | results differing by multiples of 2^16 give the same dataset |
| QuadModule.QuadModule.constructor | xpod_V5.1.0/quad_module.cpp:17-20 | status is true |
| QuadModule.QuadModule.Begin | xpod_V5.1.0/quad_module.cpp:28-37 | binds the handles to 0x69 and 0x6E, so every planned conversion goes through the handle of its chip's address; one general-call reset then a 1 ms delay; status unchanged and returned |
| QuadModule.QuadModule.ReturnUpdated | xpod_V5.1.0/quad_module.cpp:45-95 | the dataset is `Dataset` of the eight results and the requests are the plan; no member changes |
| BmeModule.BmeModule.constructor | xpod_V5.0.0/bme_module.cpp:17-20 | status is false, nothing is configured, no `begin` has been seen |
| BmeModule.BmeModule.Begin | xpod_V5.0.0/bme_module.cpp:28-42 | status becomes old status or "answers at 0x76", so after any series of calls it is true iff one of them found the sensor; on success applies T 8X, RH 2X, P 4X, filter 3, heater (320, 150) in order; returns status |
| BmeModule.StatusAfterSnoc | xpod_V5.0.0/bme_module.cpp:28-42 | one more `begin` sets the status when it finds the sensor and otherwise keeps it |
| BmeModule.StatusAfterIff | xpod_V5.0.0/bme_module.cpp:17-42 | the status after construction and a series of `begin` calls (the class's ghost `history`, which `Begin` extends) is true iff one of them found the sensor; it never returns to false |
| BmeModule.BmeModule.ReturnUpdated | xpod_V5.0.0/bme_module.cpp:50-66 | a failed measurement gives exactly T=-99, P=0, RH=-99, GR=0; a successful one copies the four values; status is neither read nor changed |
| BmeModule.FailedIff | xpod_V5.0.0/bme_module.cpp:53-62 | the dataset equals the sentinel iff the measurement failed or measured exactly the sentinel values |
| BmeModule.BufferedCopies | xpod_V5.0.0/bme_module.cpp:58-62 | distinct successful measurements give distinct datasets |
| BmeModule.NotFailedMeansMeasured | xpod_V5.0.0/bme_module.cpp:53-62 | a dataset with nonzero P or GR, or T ≠ -99, comes from a successful measurement, whose T, P, RH and GR it holds |

## Left out

- Hardware libraries (Adafruit_ADS1115, MCP342x, Adafruit_BME680, Wire) are oracles passed as parameters; their internals are not part of this model.
- AdsDriver.AdsModule.ReturnUpdated: the `Bus` is time-free, one sample per (address, channel). Two reads of the same input in one `return_updated` (MQ and FIG3_HEATER, both 0x48 channel 1) get the same sample here, where the hardware makes two conversions three settle delays (at least 300 ms) apart, with the FIG4 and FIG4_HEATER reads between them, whose values can differ.
- AdsDriver.AdsModule.Begin and AdsDriverV4.AdsModule.Begin: `responds` is time-free, one answer per address. `begin` asks `Adafruit_ADS1115::begin` once per entry, so several times for 0x48, and the model gives every entry of one call the same answer for its address. The success condition of `BeginFromConstruction` (all four devices answer) depends on this.
- `delay()` is a trace event, not time. The CO2 driver's dependence on `Wire.available()` timing is reduced to the list of bytes the bus delivers.
- Number-to-text conversion (`String(...)`, two-decimal float formatting) is an unspecified function passed in (`Text`). The read-back lemmas assume only that it produces no comma.
- Floating point:
  - the BME680 temperature and humidity are `real` values that are only copied;
  - the V4 CO reads return their `int16_t` differential as an integer rather than a `float` (the value is the same whole number);
  - the `multiplier` constant those reads declare is never used.
- The header declaring the V4 driver's identifiers is not part of this model. The entries are taken to be the enabled sensors in the order the constructor assigns them, and the table holds exactly those entries.
- FIGARO3_ENABLED and FIGARO4_ENABLED are model parameters; their values are not part of this model.
- Co2Module.GetS300Co2: with fewer than two reply bytes C returns an uninitialised `uint16_t`. The model returns `None` instead of an arbitrary value.
- Co2ModuleV3.GetS300Co2: the same undefined case is `None`; the `float` result is an exact `real`, since every possible reading is below 2^24.
- QuadModule.QuadModule.ReturnUpdated: takes the value `value` holds after each `convertAndRead`. Whether a failed conversion leaves the previous value in place is library behaviour, and is not part of this model.
- The particulate-matter (PMS5003) parser, the coordinator sketch, SD logging, RTC and the command line are not part of this model.
- Configuration headers contribute only constants (addresses, commands, flags); pins, LEDs and similar plumbing are left out.
