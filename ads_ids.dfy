/** The ADS1115 front-end's sensor identifiers, per-entry record and dataset
    (ads_module.h of firmware 5.0.0). The two compile-time flags MQ_ENABLED
    and PID_ENABLED become a `Flags` value: they decide which identifiers
    exist and therefore how the later ones are numbered. */
module AdsIds {
  import opened CTypes

  /** `ads_sensor_id_e` without its final counter enumerator. */
  datatype SensorId =
    | Fig1 | Fig2 | Fig3 | Fig3Heater | Fig4 | Fig4Heater
    | Mq | Pid
    | Misc2611 | AsWorker | AsAuxiliary

  /** The build flags that shape the enumeration. */
  datatype Flags = Flags(mqEnabled: bool, pidEnabled: bool)

  /** The flags of firmware 5.1.0: PID_ENABLED 0, MQ_ENABLED 1. */
  const DeployedFlags := Flags(mqEnabled := true, pidEnabled := false)

  /** Whether the enumerator exists in a build with these flags. */
  predicate Declared(flags: Flags, id: SensorId)
  {
    match id
    case Mq => flags.mqEnabled
    case Pid => flags.pidEnabled
    case _ => true
  }

  function Bit(b: bool): nat { if b then 1 else 0 }

  /** `ADS_SENSOR_COUNT`: the value of the enumerator after the last sensor. */
  function SensorCount(flags: Flags): nat
  {
    9 + Bit(flags.mqEnabled) + Bit(flags.pidEnabled)
  }

  /** The numeric value C++ gives an enumerator: consecutive from FIG1 = 0
      in declaration order, skipping the enumerators a flag leaves out. */
  function Index(flags: Flags, id: SensorId): (k: nat)
    requires Declared(flags, id)
    ensures k < SensorCount(flags)
  {
    var m := Bit(flags.mqEnabled);
    var p := Bit(flags.pidEnabled);
    match id
    case Fig1 => 0
    case Fig2 => 1
    case Fig3 => 2
    case Fig3Heater => 3
    case Fig4 => 4
    case Fig4Heater => 5
    case Mq => 6
    case Pid => 6 + m
    case Misc2611 => 6 + m + p
    case AsWorker => 7 + m + p
    case AsAuxiliary => 8 + m + p
  }

  /** The enumerator whose value is k: `Index` is a bijection between the
      declared identifiers and 0 .. ADS_SENSOR_COUNT-1. */
  function IdAt(flags: Flags, k: nat): (id: SensorId)
    requires k < SensorCount(flags)
    ensures Declared(flags, id) && Index(flags, id) == k
  {
    var m := Bit(flags.mqEnabled);
    var p := Bit(flags.pidEnabled);
    if k == 0 then Fig1
    else if k == 1 then Fig2
    else if k == 2 then Fig3
    else if k == 3 then Fig3Heater
    else if k == 4 then Fig4
    else if k == 5 then Fig4Heater
    else if k == 6 && flags.mqEnabled then Mq
    else if k == 6 + m && flags.pidEnabled then Pid
    else if k == 6 + m + p then Misc2611
    else if k == 7 + m + p then AsWorker
    else AsAuxiliary
  }

  /** Numbering a declared identifier and looking the number up gives the
      identifier back: no two declared enumerators share a value. */
  lemma IdAtIndex(flags: Flags, id: SensorId)
    requires Declared(flags, id)
    ensures IdAt(flags, Index(flags, id)) == id
    ensures forall other :: Declared(flags, other) && Index(flags, other) == Index(flags, id) ==> other == id
  {
  }

  /** The enumerator values, spelled out. */
  lemma IndexValues(flags: Flags)
    ensures Index(flags, Fig1) == 0 && Index(flags, Fig2) == 1 && Index(flags, Fig3) == 2
    ensures Index(flags, Fig3Heater) == 3 && Index(flags, Fig4) == 4 && Index(flags, Fig4Heater) == 5
    ensures flags.mqEnabled ==> Index(flags, Mq) == 6
    ensures flags.pidEnabled ==> Index(flags, Pid) == 6 + Bit(flags.mqEnabled)
    ensures Index(flags, Misc2611) == 6 + Bit(flags.mqEnabled) + Bit(flags.pidEnabled)
    ensures Index(flags, AsWorker) == 7 + Bit(flags.mqEnabled) + Bit(flags.pidEnabled)
    ensures Index(flags, AsAuxiliary) == 8 + Bit(flags.mqEnabled) + Bit(flags.pidEnabled)
  {
  }

  /** The declared identifiers as the header lists them. */
  function Ids(flags: Flags): seq<SensorId>
  {
    [Fig1, Fig2, Fig3, Fig3Heater, Fig4, Fig4Heater]
    + (if flags.mqEnabled then [Mq] else [])
    + (if flags.pidEnabled then [Pid] else [])
    + [Misc2611, AsWorker, AsAuxiliary]
  }

  /** The header's list numbers its identifiers 0, 1, 2, ... in order:
      the k-th listed identifier is the one with value k, every declared
      identifier is listed, and none twice. */
  lemma IdsAreConsecutive(flags: Flags)
    ensures |Ids(flags)| == SensorCount(flags)
    ensures forall k :: 0 <= k < |Ids(flags)| ==> Ids(flags)[k] == IdAt(flags, k)
    ensures forall id :: id in Ids(flags) <==> Declared(flags, id)
    ensures forall i, j :: 0 <= i < j < |Ids(flags)| ==> Ids(flags)[i] != Ids(flags)[j]
  {
    var ids := Ids(flags);
    forall k | 0 <= k < |ids| ensures ids[k] == IdAt(flags, k) {
    }
    forall id | Declared(flags, id) ensures id in ids {
      assert ids[Index(flags, id)] == IdAt(flags, Index(flags, id));
    }
  }

  /** The last two declared sensors are AS_WORKER, then AS_AUXILIARY. */
  lemma IdsEndWithAlphasense(flags: Flags)
    ensures |Ids(flags)| == SensorCount(flags)
    ensures Ids(flags)[SensorCount(flags) - 2..] == [AsWorker, AsAuxiliary]
  {
  }

  /** With the deployed flags the driver holds ten entries. */
  lemma DeployedSensorCount()
    ensures SensorCount(DeployedFlags) == 10
    ensures Index(DeployedFlags, Mq) == 6 && Index(DeployedFlags, AsAuxiliary) == 9
  {
  }

  /** `ads_module_t` without the library handle: the device address, the
      input channel and whether the device answered `begin`. */
  datatype Entry = Entry(addr: Uint8, channel: Int8, status: bool)

  /** `ADS_Data`: single-ended readings are unsigned, the two differential
      readings signed; `Mq` and `Pid` exist only when their flag is set. */
  datatype AdsData = AdsData(
    Fig1: Uint16, Fig2: Uint16, Fig3: Uint16, Fig3_heater: Uint16,
    Fig4: Uint16, Fig4_heater: Uint16,
    Mq: Option<Uint16>, Pid: Option<Uint16>,
    Misc2611: Uint16, Auxiliary: Int16, Worker: Int16)

  /** The dataset has the optional fields of exactly the enabled sensors. */
  predicate ShapedBy(data: AdsData, flags: Flags)
  {
    data.Mq.Some? == flags.mqEnabled && data.Pid.Some? == flags.pidEnabled
  }
}
